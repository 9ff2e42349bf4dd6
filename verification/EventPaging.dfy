/** Fetching a run's timeline in pages, and the numbers its events carry. */
module EventPaging {
  import opened Wrappers

  datatype Event = Event(id: string, sequence: nat)

  ghost predicate NonDecreasing(timeline: seq<Event>) {
    forall i, j :: 0 <= i < j < |timeline| ==> timeline[i].sequence <= timeline[j].sequence
  }

  ghost predicate StrictlyIncreasing(timeline: seq<Event>) {
    forall i, j :: 0 <= i < j < |timeline| ==> timeline[i].sequence < timeline[j].sequence
  }

  // ----- one page -----

  function After(timeline: seq<Event>, after: nat): (r: seq<Event>)
    ensures |r| <= |timeline|
    ensures forall i :: 0 <= i < |r| ==> r[i].sequence > after
  {
    if timeline == [] then []
    else if timeline[0].sequence > after then [timeline[0]] + After(timeline[1..], after)
    else After(timeline[1..], after)
  }

  function Latest(timeline: seq<Event>): (max: nat)
    ensures forall i :: 0 <= i < |timeline| ==> timeline[i].sequence <= max
    ensures max > 0 ==> exists i :: 0 <= i < |timeline| && timeline[i].sequence == max
  {
    if timeline == [] then 0
    else
      var last := |timeline| - 1;
      var max := Latest(timeline[..last]);
      if timeline[last].sequence > max then timeline[last].sequence else
      assert max > 0 ==> exists i :: 0 <= i < last && timeline[..last][i].sequence == max;
      max
  }

  datatype Page = Page(events: seq<Event>, afterSequence: nat, latestSequence: nat, hasMore: bool)

  function Limited(candidates: seq<Event>, limit: Option<nat>): (r: seq<Event>)
    ensures r <= candidates
  {
    match limit
    case None => candidates
    case Some(n) => if n < |candidates| then candidates[..n] else candidates
  }

  function GetRunEvents(timeline: seq<Event>, afterSequence: Option<nat>, limit: Option<nat>): Page {
    var after := OrElse(afterSequence, 0);
    var candidates := After(timeline, after);
    var limited := Limited(candidates, limit);
    Page(limited, after, Latest(timeline), |limited| < |candidates|)
  }

  // ----- polling with the number of the last event received -----

  predicate Positive(limit: Option<nat>) {
    limit.Some? ==> limit.value >= 1
  }

  lemma {:induction false} AfterLater(timeline: seq<Event>, after: nat, later: nat)
    requires after <= later
    ensures After(After(timeline, after), later) == After(timeline, later)
    ensures |After(timeline, later)| <= |After(timeline, after)|
  {
    if timeline != [] {
      AfterLater(timeline[1..], after, later);
      var rest := After(timeline[1..], after);
      if timeline[0].sequence > after { assert ([timeline[0]] + rest)[1..] == rest; }
    }
  }

  lemma {:induction false} AfterDropsEvent(timeline: seq<Event>, e: Event)
    requires e in timeline
    ensures |After(timeline, e.sequence)| < |timeline|
  {
    if timeline[0] != e { AfterDropsEvent(timeline[1..], e); }
  }

  lemma PollProgress(timeline: seq<Event>, after: nat, i: nat)
    requires i < |After(timeline, after)|
    ensures var e := After(timeline, after)[i]; |After(timeline, e.sequence)| < |After(timeline, after)|
  {
    var e := After(timeline, after)[i];
    AfterLater(timeline, after, e.sequence);
    AfterDropsEvent(After(timeline, after), e);
  }

  /** The pages a client gets that asks on, from the last number it received, while there is more. */
  function Poll(timeline: seq<Event>, after: nat, limit: Option<nat>): (pages: seq<Page>)
    requires Positive(limit)
    ensures pages != [] && !pages[|pages| - 1].hasMore
    decreases |After(timeline, after)|
  {
    var page := GetRunEvents(timeline, Some(after), limit);
    if !page.hasMore then [page]
    else
      var last := page.events[|page.events| - 1];
      PollProgress(timeline, after, |page.events| - 1);
      [page] + Poll(timeline, last.sequence, limit)
  }

  function Received(pages: seq<Page>): seq<Event> {
    if pages == [] then [] else pages[0].events + Received(pages[1..])
  }

  /** No page ends between two events with the same number. */
  ghost predicate CleanBoundaries(candidates: seq<Event>, limit: Option<nat>)
    requires Positive(limit)
    decreases |candidates|
  {
    limit.None? || |candidates| <= limit.value
    || (candidates[limit.value - 1].sequence < candidates[limit.value].sequence
        && CleanBoundaries(candidates[limit.value..], limit))
  }

  lemma {:induction false} AfterOfOrdered(candidates: seq<Event>, k: nat)
    requires NonDecreasing(candidates) && 0 < k < |candidates|
    ensures candidates[k - 1].sequence < candidates[k].sequence
        ==> After(candidates, candidates[k - 1].sequence) == candidates[k..]
    ensures candidates[k - 1].sequence == candidates[k].sequence
        ==> |After(candidates, candidates[k - 1].sequence)| < |candidates| - k
  {
    var bound := candidates[k - 1].sequence;
    NoneAfter(candidates[..k], bound);
    AfterConcat(candidates[..k], candidates[k..], bound);
    assert candidates == candidates[..k] + candidates[k..];
    if candidates[k].sequence == bound {
      AfterDropsEvent(candidates[k..], candidates[k]);
    } else {
      AllAfter(candidates[k..], bound);
    }
  }

  lemma Associative(a: seq<Event>, b: seq<Event>, c: seq<Event>)
    ensures a + b + c == a + (b + c)
  {
  }

  lemma AfterHead(e: Event, rest: seq<Event>, after: nat)
    ensures After([e] + rest, after) == if e.sequence > after then [e] + After(rest, after) else After(rest, after)
  {
    assert ([e] + rest)[1..] == rest;
  }

  lemma AfterConcatStep(h: Event, t: seq<Event>, b: seq<Event>, after: nat)
    requires After(t + b, after) == After(t, after) + After(b, after)
    ensures After([h] + t + b, after) == After([h] + t, after) + After(b, after)
  {
    AfterHead(h, t + b, after);
    AfterHead(h, t, after);
    Associative([h], t, b);
    Associative([h], After(t, after), After(b, after));
  }

  lemma {:induction false} AfterConcat(a: seq<Event>, b: seq<Event>, after: nat)
    ensures After(a + b, after) == After(a, after) + After(b, after)
  {
    if a == [] {
      assert a + b == b;
    } else {
      AfterConcat(a[1..], b, after);
      AfterConcatStep(a[0], a[1..], b, after);
      assert a == [a[0]] + a[1..];
    }
  }

  lemma RestEqual(p: seq<Event>, more: seq<Event>, all: seq<Event>)
    requires p <= all
    ensures p + more == all <==> more == all[|p|..]
  {
    assert all == p + all[|p|..];
    assert (p + more)[|p|..] == more;
  }

  lemma {:induction false} AllAfter(timeline: seq<Event>, after: nat)
    requires forall i :: 0 <= i < |timeline| ==> timeline[i].sequence > after
    ensures After(timeline, after) == timeline
  {
    if timeline != [] { AllAfter(timeline[1..], after); }
  }

  lemma {:induction false} NoneAfter(timeline: seq<Event>, after: nat)
    requires forall i :: 0 <= i < |timeline| ==> timeline[i].sequence <= after
    ensures After(timeline, after) == []
  {
    if timeline != [] { NoneAfter(timeline[1..], after); }
  }

  /** Every event of a page comes from the timeline. */
  lemma {:induction false} AfterFrom(timeline: seq<Event>, after: nat, i: nat)
    requires i < |After(timeline, after)|
    ensures exists j :: 0 <= j < |timeline| && timeline[j] == After(timeline, after)[i]
  {
    var tail := timeline[1..];
    if timeline[0].sequence <= after {
      AfterFrom(tail, after, i);
      var j :| 0 <= j < |tail| && tail[j] == After(tail, after)[i];
      assert timeline[j + 1] == tail[j];
    } else if i > 0 {
      AfterFrom(tail, after, i - 1);
      var j :| 0 <= j < |tail| && tail[j] == After(tail, after)[i - 1];
      assert timeline[j + 1] == tail[j];
    }
  }

  lemma {:induction false} AfterKeepsOrder(timeline: seq<Event>, after: nat)
    requires NonDecreasing(timeline)
    ensures NonDecreasing(After(timeline, after))
  {
    if timeline != [] {
      var tail := timeline[1..];
      var rest := After(tail, after);
      AfterKeepsOrder(tail, after);
      forall i | 0 <= i < |rest| ensures timeline[0].sequence <= rest[i].sequence { AfterFrom(tail, after, i); }
    }
  }

  lemma {:induction false} AfterKeepsStrictOrder(timeline: seq<Event>, after: nat)
    requires StrictlyIncreasing(timeline)
    ensures StrictlyIncreasing(After(timeline, after))
  {
    if timeline != [] {
      var tail := timeline[1..];
      var rest := After(tail, after);
      AfterKeepsStrictOrder(tail, after);
      forall i | 0 <= i < |rest| ensures timeline[0].sequence < rest[i].sequence { AfterFrom(tail, after, i); }
    }
  }

  lemma ReceivedStep(page: Page, pages: seq<Page>)
    ensures Received([page] + pages) == page.events + Received(pages)
  {
    assert ([page] + pages)[1..] == pages;
  }

  lemma FullPage(timeline: seq<Event>, after: nat, k: nat)
    requires 0 < k < |After(timeline, after)|
    ensures GetRunEvents(timeline, Some(after), Some(k)).events == After(timeline, after)[..k]
    ensures GetRunEvents(timeline, Some(after), Some(k)).hasMore
  {
  }

  lemma PollMore(timeline: seq<Event>, after: nat, k: nat)
    requires 0 < k < |After(timeline, after)|
    ensures var page := GetRunEvents(timeline, Some(after), Some(k));
            Poll(timeline, after, Some(k)) == [page] + Poll(timeline, After(timeline, after)[k - 1].sequence, Some(k))
  {
    FullPage(timeline, after, k);
    assert GetRunEvents(timeline, Some(after), Some(k)).events[k - 1] == After(timeline, after)[k - 1];
  }

  lemma ReceivedMore(timeline: seq<Event>, after: nat, k: nat)
    requires 0 < k < |After(timeline, after)|
    ensures var candidates := After(timeline, after);
            Received(Poll(timeline, after, Some(k))) ==
            candidates[..k] + Received(Poll(timeline, candidates[k - 1].sequence, Some(k)))
  {
    FullPage(timeline, after, k);
    PollMore(timeline, after, k);
    ReceivedStep(GetRunEvents(timeline, Some(after), Some(k)),
      Poll(timeline, After(timeline, after)[k - 1].sequence, Some(k)));
  }

  lemma PollLast(timeline: seq<Event>, after: nat, limit: Option<nat>)
    requires Positive(limit) && (limit.None? || |After(timeline, after)| <= limit.value)
    ensures Received(Poll(timeline, after, limit)) == After(timeline, after)
  {
    var page := GetRunEvents(timeline, Some(after), limit);
    assert Poll(timeline, after, limit) == [page];
    ReceivedStep(page, []);
  }

  /** What a poll of these candidates brings: a page, then a poll of what lies beyond its last number. */
  ghost function Drained(candidates: seq<Event>, limit: Option<nat>): seq<Event>
    requires Positive(limit)
    decreases |candidates|
  {
    if limit.None? || |candidates| <= limit.value then candidates
    else
      var last := candidates[limit.value - 1];
      AfterDropsEvent(candidates, last);
      candidates[..limit.value] + Drained(After(candidates, last.sequence), limit)
  }

  lemma PollDrainsStep(timeline: seq<Event>, after: nat, k: nat, last: nat)
    requires 0 < k < |After(timeline, after)| && last == After(timeline, after)[k - 1].sequence
    requires Received(Poll(timeline, last, Some(k))) == Drained(After(timeline, last), Some(k))
    ensures Received(Poll(timeline, after, Some(k))) == Drained(After(timeline, after), Some(k))
  {
    ReceivedMore(timeline, after, k);
    PollProgress(timeline, after, k - 1);
    AfterLater(timeline, after, last);
    DrainMore(After(timeline, after), k);
  }

  lemma {:induction false} PollDrains(timeline: seq<Event>, after: nat, limit: Option<nat>)
    requires Positive(limit)
    ensures Received(Poll(timeline, after, limit)) == Drained(After(timeline, after), limit)
    decreases |After(timeline, after)|
  {
    match limit {
      case None => PollLast(timeline, after, limit);
      case Some(k) =>
        if k < |After(timeline, after)| {
          var last := After(timeline, after)[k - 1].sequence;
          PollProgress(timeline, after, k - 1);
          PollDrains(timeline, last, limit);
          PollDrainsStep(timeline, after, k, last);
        } else {
          PollLast(timeline, after, limit);
        }
    }
  }

  lemma DrainMore(candidates: seq<Event>, k: nat)
    requires 0 < k < |candidates|
    ensures Drained(candidates, Some(k))
         == candidates[..k] + Drained(After(candidates, candidates[k - 1].sequence), Some(k))
  {
  }

  /** Beyond a page lies the rest, or less than that when the page ends within a tie. */
  lemma BeyondPage(candidates: seq<Event>, k: nat)
    requires NonDecreasing(candidates) && 0 < k < |candidates|
    ensures var beyond := After(candidates, candidates[k - 1].sequence);
            && NonDecreasing(beyond)
            && (if candidates[k - 1].sequence < candidates[k].sequence then beyond == candidates[k..]
                else |beyond| < |candidates| - k)
  {
    AfterKeepsOrder(candidates, candidates[k - 1].sequence);
    AfterOfOrdered(candidates, k);
  }

  /** Polling never brings more events than are there. */
  lemma {:induction false} DrainedAtMost(candidates: seq<Event>, limit: Option<nat>)
    requires Positive(limit) && NonDecreasing(candidates)
    ensures |Drained(candidates, limit)| <= |candidates|
    decreases |candidates|
  {
    if limit.Some? && limit.value < |candidates| {
      BeyondPage(candidates, limit.value);
      DrainedAtMost(After(candidates, candidates[limit.value - 1].sequence), limit);
    }
  }

  lemma {:induction false} DrainedIffClean(candidates: seq<Event>, limit: Option<nat>)
    requires Positive(limit) && NonDecreasing(candidates)
    ensures Drained(candidates, limit) == candidates <==> CleanBoundaries(candidates, limit)
    decreases |candidates|
  {
    if limit.Some? && limit.value < |candidates| {
      var k := limit.value;
      var beyond := After(candidates, candidates[k - 1].sequence);
      BeyondPage(candidates, k);
      DrainMore(candidates, k);
      RestEqual(candidates[..k], Drained(beyond, limit), candidates);
      CleanStep(candidates, limit);
      if candidates[k - 1].sequence < candidates[k].sequence {
        DrainedIffClean(beyond, limit);
      } else {
        DrainedAtMost(beyond, limit);
      }
    }
  }

  lemma CleanStep(candidates: seq<Event>, limit: Option<nat>)
    requires Positive(limit) && limit.Some? && limit.value < |candidates|
    ensures var k := limit.value;
            CleanBoundaries(candidates, limit) <==>
            candidates[k - 1].sequence < candidates[k].sequence && CleanBoundaries(candidates[k..], limit)
  {
  }

  /**
   On a timeline in order, polling returns every later event, once and in order, exactly if no page
   ends between two events with the same number.
   */
  lemma PollCompleteIffClean(timeline: seq<Event>, after: nat, limit: Option<nat>)
    requires Positive(limit) && NonDecreasing(timeline)
    ensures Received(Poll(timeline, after, limit)) == After(timeline, after)
       <==> CleanBoundaries(After(timeline, after), limit)
  {
    PollDrains(timeline, after, limit);
    AfterKeepsOrder(timeline, after);
    DrainedIffClean(After(timeline, after), limit);
  }

  // ----- timelines in any order -----

  ghost predicate Distinct(events: seq<Event>) {
    forall i, j :: 0 <= i < j < |events| ==> events[i] != events[j]
  }

  /** The last number of a page parts the page from all that comes after it. */
  ghost predicate Parts(candidates: seq<Event>, k: nat)
    requires 0 < k < |candidates|
  {
    && (forall i :: 0 <= i < k ==> candidates[i].sequence <= candidates[k - 1].sequence)
    && (forall j :: k <= j < |candidates| ==> candidates[j].sequence > candidates[k - 1].sequence)
  }

  /** So does that of every page. */
  ghost predicate Parted(candidates: seq<Event>, limit: Option<nat>)
    requires Positive(limit)
    decreases |candidates|
  {
    limit.None? || |candidates| <= limit.value
    || (Parts(candidates, limit.value) && Parted(candidates[limit.value..], limit))
  }

  lemma BeyondParted(candidates: seq<Event>, k: nat)
    requires 0 < k < |candidates| && Parts(candidates, k)
    ensures After(candidates, candidates[k - 1].sequence) == candidates[k..]
  {
    var bound := candidates[k - 1].sequence;
    assert candidates == candidates[..k] + candidates[k..];
    AfterConcat(candidates[..k], candidates[k..], bound);
    NoneAfter(candidates[..k], bound);
    AllAfter(candidates[k..], bound);
  }

  /** Whatever polling brings are candidates, and their first comes first. */
  lemma {:induction false} DrainedFrom(candidates: seq<Event>, limit: Option<nat>, i: nat)
    requires Positive(limit) && i < |Drained(candidates, limit)|
    ensures Drained(candidates, limit)[i] in candidates
    ensures i == 0 ==> Drained(candidates, limit)[0] == candidates[0]
    decreases |candidates|
  {
    if limit.Some? && limit.value < |candidates| {
      var k := limit.value;
      var bound := candidates[k - 1].sequence;
      DrainMore(candidates, k);
      if i >= k {
        AfterDropsEvent(candidates, candidates[k - 1]);
        DrainedFrom(After(candidates, bound), limit, i - k);
        var e := Drained(candidates, limit)[i];
        var h :| 0 <= h < |After(candidates, bound)| && After(candidates, bound)[h] == e;
        AfterFrom(candidates, bound, h);
      }
    }
  }

  lemma RestBeyond(candidates: seq<Event>, bound: nat, limit: Option<nat>, rest: seq<Event>)
    requires Positive(limit) && Drained(After(candidates, bound), limit) == rest
    ensures forall j :: 0 <= j < |rest| ==> rest[j].sequence > bound
  {
    var beyond := After(candidates, bound);
    forall j | 0 <= j < |rest| ensures rest[j].sequence > bound {
      DrainedFrom(beyond, limit, j);
      var h :| 0 <= h < |beyond| && beyond[h] == rest[j];
    }
  }

  lemma DistinctParts(page: seq<Event>, rest: seq<Event>)
    requires rest != [] && Distinct(page + rest)
    ensures forall j :: 0 <= j < |page| ==> page[j] != rest[0]
  {
    var all := page + rest;
    forall j | 0 <= j < |page| ensures page[j] != rest[0] { assert all[j] == page[j] && all[|page|] == rest[0]; }
  }

  lemma PageWithin(page: seq<Event>, rest: seq<Event>, bound: nat, limit: Option<nat>)
    requires Positive(limit) && page != [] && rest != [] && Distinct(page + rest)
    requires forall j :: 0 <= j < |rest| ==> rest[j].sequence > bound
    requires Drained(After(page + rest, bound), limit) == rest
    ensures forall i :: 0 <= i < |page| ==> page[i].sequence <= bound
  {
    AfterConcat(page, rest, bound);
    AllAfter(rest, bound);
    DrainedFrom(After(page + rest, bound), limit, 0);
    if After(page, bound) != [] {
      AfterFrom(page, bound, 0);
      DistinctParts(page, rest);
      assert false;
    }
    forall i | 0 <= i < |page| ensures page[i].sequence <= bound {
      if page[i].sequence > bound { NoneLeftOut(page, bound, i); }
    }
  }

  /** If polling on from a page brings just the rest, the page's last number parts it from that. */
  lemma RestMeansParted(candidates: seq<Event>, k: nat)
    requires 0 < k < |candidates| && Distinct(candidates)
    requires Drained(After(candidates, candidates[k - 1].sequence), Some(k)) == candidates[k..]
    ensures Parts(candidates, k)
  {
    var page, rest, bound := candidates[..k], candidates[k..], candidates[k - 1].sequence;
    RestBeyond(candidates, bound, Some(k), rest);
    assert candidates == page + rest;
    PageWithin(page, rest, bound, Some(k));
    forall i | 0 <= i < k ensures candidates[i].sequence <= bound { assert candidates[i] == page[i]; }
    forall j | k <= j < |candidates| ensures candidates[j].sequence > bound { assert candidates[j] == rest[j - k]; }
  }

  lemma {:induction false} NoneLeftOut(timeline: seq<Event>, after: nat, i: nat)
    requires i < |timeline| && timeline[i].sequence > after
    ensures After(timeline, after) != []
  {
    if i > 0 { NoneLeftOut(timeline[1..], after, i - 1); }
  }

  lemma {:induction false} PartedIsDrained(candidates: seq<Event>, limit: Option<nat>)
    requires Positive(limit)
    ensures Parted(candidates, limit) ==> Drained(candidates, limit) == candidates
    ensures Distinct(candidates) && Drained(candidates, limit) == candidates ==> Parted(candidates, limit)
    decreases |candidates|
  {
    if limit.Some? && limit.value < |candidates| {
      var k := limit.value;
      DrainMore(candidates, k);
      RestEqual(candidates[..k], Drained(After(candidates, candidates[k - 1].sequence), limit), candidates);
      if Distinct(candidates) && Drained(candidates, limit) == candidates { RestMeansParted(candidates, k); }
      if Parts(candidates, k) {
        BeyondParted(candidates, k);
        PartedIsDrained(candidates[k..], limit);
      }
    }
  }

  lemma {:induction false} AfterKeepsDistinct(timeline: seq<Event>, after: nat)
    requires Distinct(timeline)
    ensures Distinct(After(timeline, after))
  {
    if timeline != [] {
      var tail := timeline[1..];
      var rest := After(tail, after);
      AfterKeepsDistinct(tail, after);
      forall i | 0 <= i < |rest| ensures rest[i] != timeline[0] { AfterFrom(tail, after, i); }
    }
  }

  /**
   In whatever order the timeline is: polling returns every later event, once and in order, if the last
   number of each page parts it from all that follows; and, no event being there twice, only then.
   */
  lemma PollCompleteIffParted(timeline: seq<Event>, after: nat, limit: Option<nat>)
    requires Positive(limit)
    ensures Parted(After(timeline, after), limit) ==> Received(Poll(timeline, after, limit)) == After(timeline, after)
    ensures Distinct(timeline) ==>
              (Received(Poll(timeline, after, limit)) == After(timeline, after) <==> Parted(After(timeline, after), limit))
  {
    PollDrains(timeline, after, limit);
    PartedIsDrained(After(timeline, after), limit);
    if Distinct(timeline) { AfterKeepsDistinct(timeline, after); }
  }

  // ----- strictly increasing numbers -----

  lemma {:induction false} StrictIsClean(candidates: seq<Event>, limit: Option<nat>)
    requires Positive(limit) && StrictlyIncreasing(candidates)
    ensures CleanBoundaries(candidates, limit)
    decreases |candidates|
  {
    if limit.Some? && |candidates| > limit.value { StrictIsClean(candidates[limit.value..], limit); }
  }

  /** With strictly increasing numbers polling terminates having returned each later event once, in order. */
  lemma PollComplete(timeline: seq<Event>, after: nat, limit: Option<nat>)
    requires Positive(limit) && StrictlyIncreasing(timeline)
    ensures Received(Poll(timeline, after, limit)) == After(timeline, after)
  {
    AfterKeepsStrictOrder(timeline, after);
    StrictIsClean(After(timeline, after), limit);
    PollCompleteIffClean(timeline, after, limit);
  }

  /** A tie across a page boundary is lost. */
  lemma TieIsLost()
    ensures var t := [Event("a", 1), Event("b", 2), Event("c", 2)];
            NonDecreasing(t) && !CleanBoundaries(After(t, 0), Some(2))
            && Received(Poll(t, 0, Some(2))) != After(t, 0)
  {
    var t := [Event("a", 1), Event("b", 2), Event("c", 2)];
    AllAfter(t, 0);
    PollCompleteIffClean(t, 0, Some(2));
  }

  /** Asking on from `latest_sequence` brings nothing, so a page cut short must not be followed that way. */
  lemma NothingAfterLatest(timeline: seq<Event>, after: Option<nat>, limit: Option<nat>)
    ensures var page := GetRunEvents(timeline, after, limit);
            var next := GetRunEvents(timeline, Some(page.latestSequence), limit);
            && next.events == [] && !next.hasMore
            && (page.events + next.events == After(timeline, OrElse(after, 0)) <==> !page.hasMore)
  {
    NoneAfter(timeline, Latest(timeline));
    var page := GetRunEvents(timeline, after, limit);
    assert page.events + [] == page.events;
  }

  // ----- polling while the run goes on -----

  datatype Client = Client(after: nat, received: seq<Event>)

  function Ask(c: Client, timeline: seq<Event>, limit: Option<nat>): Client {
    var page := GetRunEvents(timeline, Some(c.after), limit);
    if page.events == [] then c
    else Client(page.events[|page.events| - 1].sequence, c.received + page.events)
  }

  /** One request to each of the timelines in turn. */
  function Watch(c: Client, timelines: seq<seq<Event>>, limit: Option<nat>): Client {
    if timelines == [] then c
    else Ask(Watch(c, timelines[..|timelines| - 1], limit), timelines[|timelines| - 1], limit)
  }

  ghost predicate Growing(timelines: seq<seq<Event>>) {
    && (forall i :: 0 <= i < |timelines| ==> StrictlyIncreasing(timelines[i]))
    && (forall i :: 0 < i < |timelines| ==> timelines[i - 1] <= timelines[i])
  }

  /** What the client holds and what it has yet to fetch make up all events after its starting point. */
  ghost predicate UpToDate(c: Client, start: nat, timeline: seq<Event>) {
    && c.received + After(timeline, c.after) == After(timeline, start)
    && (c.received == [] ==> c.after == start)
    && (c.received != [] ==> start < c.after && exists i :: 0 <= i < |timeline| && timeline[i].sequence == c.after)
  }

  lemma RestAfterPage(timeline: seq<Event>, after: nat, k: nat)
    requires StrictlyIncreasing(timeline) && 0 < k <= |After(timeline, after)|
    ensures var candidates := After(timeline, after);
            After(timeline, candidates[k - 1].sequence) == candidates[k..]
  {
    var candidates := After(timeline, after);
    AfterKeepsStrictOrder(timeline, after);
    AfterLater(timeline, after, candidates[k - 1].sequence);
    if k < |candidates| {
      AfterOfOrdered(candidates, k);
    } else {
      NoneAfter(candidates, candidates[k - 1].sequence);
    }
  }

  lemma PageKeepsUpToDate(c: Client, start: nat, timeline: seq<Event>, k: nat)
    requires StrictlyIncreasing(timeline) && UpToDate(c, start, timeline) && 0 < k <= |After(timeline, c.after)|
    ensures var candidates := After(timeline, c.after);
            UpToDate(Client(candidates[k - 1].sequence, c.received + candidates[..k]), start, timeline)
  {
    var candidates := After(timeline, c.after);
    AfterFrom(timeline, c.after, k - 1);
    RestAfterPage(timeline, c.after, k);
    assert candidates == candidates[..k] + candidates[k..];
    Associative(c.received, candidates[..k], candidates[k..]);
  }

  lemma AskTakes(c: Client, timeline: seq<Event>, limit: Option<nat>) returns (k: nat)
    ensures var candidates := After(timeline, c.after);
            && k <= |candidates|
            && Ask(c, timeline, limit)
            == if k == 0 then c else Client(candidates[k - 1].sequence, c.received + candidates[..k])
  {
    var candidates := After(timeline, c.after);
    var page := Limited(candidates, limit);
    k := |page|;
    assert page == candidates[..k];
  }

  lemma AskKeepsUpToDate(c: Client, start: nat, timeline: seq<Event>, limit: Option<nat>)
    requires StrictlyIncreasing(timeline) && UpToDate(c, start, timeline)
    ensures UpToDate(Ask(c, timeline, limit), start, timeline)
  {
    var k := AskTakes(c, timeline, limit);
    if k > 0 { PageKeepsUpToDate(c, start, timeline, k); }
  }

  lemma AfterGrown(timeline: seq<Event>, more: seq<Event>, after: nat, i: nat)
    requires StrictlyIncreasing(timeline + more) && i < |timeline| && after <= timeline[i].sequence
    ensures After(timeline + more, after) == After(timeline, after) + more
  {
    AfterConcat(timeline, more, after);
    forall j | 0 <= j < |more| ensures more[j].sequence > after {
      assert (timeline + more)[i] == timeline[i] && (timeline + more)[|timeline| + j] == more[j];
    }
    AllAfter(more, after);
  }

  lemma GrowthKeepsUpToDate(c: Client, start: nat, timeline: seq<Event>, more: seq<Event>)
    requires StrictlyIncreasing(timeline + more) && UpToDate(c, start, timeline)
    ensures UpToDate(c, start, timeline + more)
  {
    if c.received == [] {
      assert c.received + After(timeline + more, start) == After(timeline + more, start);
    } else {
      var i :| 0 <= i < |timeline| && timeline[i].sequence == c.after;
      AfterGrown(timeline, more, start, i);
      AfterGrown(timeline, more, c.after, i);
      Associative(c.received, After(timeline, c.after), more);
      assert (timeline + more)[i].sequence == c.after;
    }
  }

  /** However the timeline grows between requests, no event is missed and none comes twice. */
  lemma {:induction false} WatchMissesNothing(timelines: seq<seq<Event>>, start: nat, limit: Option<nat>)
    requires timelines != [] && Growing(timelines)
    ensures UpToDate(Watch(Client(start, []), timelines, limit), start, timelines[|timelines| - 1])
  {
    var n := |timelines| - 1;
    var front, last := timelines[..n], timelines[n];
    var c := Watch(Client(start, []), front, limit);
    if front == [] {
      assert [] + After(last, start) == After(last, start);
    } else {
      WatchMissesNothing(front, start, limit);
      assert timelines[n - 1] <= last && last == front[n - 1] + last[|front[n - 1]|..];
      GrowthKeepsUpToDate(c, start, front[n - 1], last[|front[n - 1]|..]);
    }
    AskKeepsUpToDate(c, start, last, limit);
  }

  // ----- the numbers of the timeline -----

  /** The numbers the live run gave its events; a later entry for the same event wins. */
  function LiveNumbers(live: seq<Event>): (m: map<string, nat>)
    ensures live != [] ==> m != map[]
  {
    if live == [] then map[]
    else
      var last := live[|live| - 1];
      var m := LiveNumbers(live[..|live| - 1])[last.id := last.sequence];
      assert last.id in m;
      m
  }

  /** An event of the live run has the number of its last entry there, any other none. */
  lemma {:induction false} LastEntryWins(live: seq<Event>, i: nat)
    requires i < |live| && forall j :: i < j < |live| ==> live[j].id != live[i].id
    ensures live[i].id in LiveNumbers(live) && LiveNumbers(live)[live[i].id] == live[i].sequence
    ensures forall id :: id in LiveNumbers(live) ==> exists j :: 0 <= j < |live| && live[j].id == id
  {
    var n := |live| - 1;
    assert live == live[..n] + [live[n]];
    LiveHave(live);
    if i < n { LastEntryWins(live[..n], i); }
  }

  lemma {:induction false} LiveHave(live: seq<Event>)
    ensures forall id :: id in LiveNumbers(live) ==> exists j :: 0 <= j < |live| && live[j].id == id
  {
    if live != [] {
      var n := |live| - 1;
      LiveHave(live[..n]);
      forall id | id in LiveNumbers(live) ensures exists j :: 0 <= j < |live| && live[j].id == id {
        if id in LiveNumbers(live[..n]) {
          var j :| 0 <= j < n && live[..n][j].id == id;
          assert live[j].id == id;
        } else {
          assert live[n].id == id;
        }
      }
    }
  }

  /** The smallest number in use. */
  ghost predicate IsFirst(first: nat, numbers: map<string, nat>) {
    (exists k :: k in numbers && numbers[k] == first) && forall k :: k in numbers ==> first <= numbers[k]
  }

  /** What an event unknown to the live run borrows: the number of the nearest known event before it. */
  function Borrowed(timeline: seq<Event>, numbers: map<string, nat>, first: nat, i: nat): nat
    requires i <= |timeline|
  {
    if i == 0 then first
    else if timeline[i - 1].id in numbers then numbers[timeline[i - 1].id]
    else Borrowed(timeline, numbers, first, i - 1)
  }

  ghost predicate IsAligned(aligned: seq<Event>, timeline: seq<Event>, numbers: map<string, nat>, first: nat) {
    && |aligned| == |timeline|
    && (forall i :: 0 <= i < |timeline| ==> aligned[i].id == timeline[i].id)
    && (forall i :: 0 <= i < |timeline| && timeline[i].id in numbers ==>
          aligned[i].sequence == numbers[timeline[i].id])
    && (forall i :: 0 <= i < |timeline| && timeline[i].id !in numbers ==>
          aligned[i].sequence == Borrowed(timeline, numbers, first, i))
  }

  method FirstLiveSequence(live: seq<Event>) returns (first: nat)
    requires live != []
    ensures IsFirst(first, LiveNumbers(live))
  {
    var numbers := LiveNumbers(live);
    var todo := numbers.Keys;
    var id := live[|live| - 1].id;
    assert id in numbers;
    first := numbers[id];
    while todo != {}
      invariant todo <= numbers.Keys && id in numbers && numbers[id] == first
      invariant forall k :: k in numbers && k !in todo ==> first <= numbers[k]
      decreases |todo|
    {
      var k :| k in todo;
      if numbers[k] < first { first, id := numbers[k], k; }
      todo := todo - {k};
    }
  }

  method AlignTimelineSequences(timeline: seq<Event>, live: seq<Event>) returns (aligned: seq<Event>)
    ensures live == [] ==> aligned == timeline
    ensures live != [] ==> exists first :: IsFirst(first, LiveNumbers(live))
                                        && IsAligned(aligned, timeline, LiveNumbers(live), first)
  {
    if live == [] { return timeline; }
    var numbers := LiveNumbers(live);
    var first := FirstLiveSequence(live);
    if timeline == [] {
      assert IsAligned([], timeline, numbers, first);
      return [];
    }
    var previous := first;
    aligned := [];
    for i := 0 to |timeline|
      invariant previous == Borrowed(timeline, numbers, first, i)
      invariant IsAligned(aligned, timeline[..i], numbers, first)
    {
      AlignedOneMore(timeline, numbers, first, i, aligned);
      if timeline[i].id in numbers { previous := numbers[timeline[i].id]; }
      aligned := aligned + [Event(timeline[i].id, previous)];
    }
    assert timeline[..|timeline|] == timeline;
  }

  lemma AlignedOneMore(timeline: seq<Event>, numbers: map<string, nat>, first: nat, i: nat, aligned: seq<Event>)
    requires i < |timeline| && IsAligned(aligned, timeline[..i], numbers, first)
    ensures var id := timeline[i].id;
            var n := if id in numbers then numbers[id] else Borrowed(timeline, numbers, first, i);
            IsAligned(aligned + [Event(id, n)], timeline[..i + 1], numbers, first)
  {
    var more, front := timeline[..i + 1], timeline[..i];
    assert more == front + [timeline[i]];
    BorrowedPrefix(timeline, numbers, first, i);
    forall j | 0 <= j < i
      ensures more[j] == front[j] && Borrowed(more, numbers, first, j) == Borrowed(front, numbers, first, j)
    {
      BorrowedSame(more, front, numbers, first, j);
    }
  }

  lemma {:induction false} BorrowedSame(a: seq<Event>, b: seq<Event>, numbers: map<string, nat>, first: nat, i: nat)
    requires i <= |a| && i <= |b| && forall j :: 0 <= j < i ==> a[j] == b[j]
    ensures Borrowed(a, numbers, first, i) == Borrowed(b, numbers, first, i)
  {
    if i > 0 { BorrowedSame(a, b, numbers, first, i - 1); }
  }

  lemma BorrowedPrefix(timeline: seq<Event>, numbers: map<string, nat>, first: nat, i: nat)
    requires i < |timeline|
    ensures Borrowed(timeline[..i + 1], numbers, first, i) == Borrowed(timeline, numbers, first, i)
  {
    BorrowedSame(timeline[..i + 1], timeline, numbers, first, i);
  }

  /** The events both channels know appear in the timeline in the order of their numbers. */
  ghost predicate InLiveOrder(timeline: seq<Event>, numbers: map<string, nat>) {
    forall i, j :: 0 <= i < j < |timeline| && timeline[i].id in numbers && timeline[j].id in numbers ==>
      numbers[timeline[i].id] <= numbers[timeline[j].id]
  }

  lemma {:induction false} BorrowedFrom(timeline: seq<Event>, numbers: map<string, nat>, first: nat, i: nat)
    requires i <= |timeline|
    ensures Borrowed(timeline, numbers, first, i) == first
         || exists k :: 0 <= k < i && timeline[k].id in numbers
                     && Borrowed(timeline, numbers, first, i) == numbers[timeline[k].id]
  {
    if i > 0 && timeline[i - 1].id !in numbers { BorrowedFrom(timeline, numbers, first, i - 1); }
  }

  lemma StepUp(timeline: seq<Event>, numbers: map<string, nat>, first: nat, aligned: seq<Event>, i: nat)
    requires IsFirst(first, numbers) && IsAligned(aligned, timeline, numbers, first)
    requires InLiveOrder(timeline, numbers) && 0 < i < |timeline|
    ensures aligned[i - 1].sequence <= aligned[i].sequence
  {
    BorrowedFrom(timeline, numbers, first, i - 1);
  }

  lemma {:induction false} Ordered(timeline: seq<Event>, i: nat, j: nat)
    requires forall k :: 0 < k < |timeline| ==> timeline[k - 1].sequence <= timeline[k].sequence
    requires i <= j < |timeline|
    ensures timeline[i].sequence <= timeline[j].sequence
  {
    if i < j { Ordered(timeline, i, j - 1); }
  }

  /** The aligned numbers never go down exactly if the two channels agree on the order of what both know. */
  lemma AlignedInOrderIff(timeline: seq<Event>, numbers: map<string, nat>, first: nat, aligned: seq<Event>)
    requires IsFirst(first, numbers) && IsAligned(aligned, timeline, numbers, first)
    ensures NonDecreasing(aligned) <==> InLiveOrder(timeline, numbers)
  {
    if InLiveOrder(timeline, numbers) {
      forall k | 0 < k < |aligned| ensures aligned[k - 1].sequence <= aligned[k].sequence {
        StepUp(timeline, numbers, first, aligned, k);
      }
      forall i, j | 0 <= i < j < |aligned| ensures aligned[i].sequence <= aligned[j].sequence {
        Ordered(aligned, i, j);
      }
    }
    if NonDecreasing(aligned) {
      forall i, j | 0 <= i < j < |timeline| && timeline[i].id in numbers && timeline[j].id in numbers
        ensures numbers[timeline[i].id] <= numbers[timeline[j].id]
      {
        assert aligned[i].sequence <= aligned[j].sequence;
      }
    }
  }

  /** The order can differ: two events both channels know, in the timeline the other way round, go down. */
  lemma AlignedCanGoDown()
    ensures var timeline := [Event("a", 1), Event("b", 2)];
            var live := [Event("b", 1), Event("a", 2)];
            && IsFirst(1, LiveNumbers(live))
            && IsAligned([Event("a", 2), Event("b", 1)], timeline, LiveNumbers(live), 1)
            && !NonDecreasing([Event("a", 2), Event("b", 1)])
  {
    var live := [Event("b", 1), Event("a", 2)];
    var numbers := LiveNumbers(live);
    var one: seq<Event> := [Event("b", 1)];
    assert live[..1] == one && one[..0] == [];
    assert LiveNumbers(one) == map["b" := 1];
    assert numbers == map["b" := 1, "a" := 2];
    assert numbers["b"] == 1;
    var aligned := [Event("a", 2), Event("b", 1)];
    assert aligned[0].sequence > aligned[1].sequence;
  }

  lemma AlignedPositive(timeline: seq<Event>, numbers: map<string, nat>, first: nat, aligned: seq<Event>)
    requires IsFirst(first, numbers) && IsAligned(aligned, timeline, numbers, first) && first > 0
    ensures After(aligned, 0) == aligned
  {
    forall i | 0 <= i < |aligned| ensures aligned[i].sequence > 0 {
      BorrowedFrom(timeline, numbers, first, i);
    }
    AllAfter(aligned, 0);
  }

  lemma {:induction false} TieAtFirstBoundary(timeline: seq<Event>, limit: nat)
    requires NonDecreasing(timeline) && After(timeline, 0) == timeline && 0 < limit < |timeline|
    requires timeline[limit - 1].sequence == timeline[limit].sequence
    ensures Received(Poll(timeline, 0, Some(limit))) != timeline
  {
    assert !CleanBoundaries(timeline, Some(limit));
    PollCompleteIffClean(timeline, 0, Some(limit));
  }

  /** So a page that ends just before an event the live run does not know loses that event. */
  lemma UnknownEventLostAtBoundary(timeline: seq<Event>, numbers: map<string, nat>, first: nat, aligned: seq<Event>,
      limit: nat)
    requires IsFirst(first, numbers) && IsAligned(aligned, timeline, numbers, first) && InLiveOrder(timeline, numbers)
    requires 0 < limit < |timeline| && timeline[limit].id !in numbers && first > 0
    ensures Received(Poll(aligned, 0, Some(limit))) != After(aligned, 0) == aligned
  {
    AlignedInOrderIff(timeline, numbers, first, aligned);
    AlignedPositive(timeline, numbers, first, aligned);
    TieAtFirstBoundary(aligned, limit);
  }
}
