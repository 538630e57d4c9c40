/**
 The conflict sweep of `upcoming_calendar_candidates` (backend/app/proactive_watchers.py). Instants
 and event identities are numbers; identities are numbered in the order of their text.
 */
module CalendarConflicts {
  import opened Wrappers
  import opened StableSort

  /** A validated timed event ends after it starts. */
  datatype Event = Event(id: int, start: int, end: int, allDay: bool, cancelled: bool) {
    predicate Valid() { !allDay ==> start < end }
  }

  const DAY := 86_400

  /** Two upcoming events, by position, and the time they share. */
  datatype Conflict = Conflict(first: nat, second: nat, start: int, end: int)

  predicate Upcoming(e: Event, now: int, horizon: int) {
    !e.allDay && !e.cancelled && e.end > now && e.start <= now + horizon
  }

  function Filter(events: seq<Event>, now: int, horizon: int): (r: seq<Event>)
    ensures forall e :: e in r <==> e in events && Upcoming(e, now, horizon)
  {
    if events == [] then []
    else
      var rest := Filter(events[1..], now, horizon);
      assert forall e :: e in events <==> e == events[0] || e in events[1..];
      if Upcoming(events[0], now, horizon) then [events[0]] + rest else rest
  }

  predicate ByTime(a: Event, b: Event) {
    || a.start < b.start
    || (a.start == b.start && (a.end < b.end || (a.end == b.end && a.id <= b.id)))
  }

  // ----- brute force -----

  /** The two events are different ones and there is an instant inside both. */
  predicate Clash(a: Event, b: Event) { a.id != b.id && a.start < b.end && b.start < a.end }

  function Max(a: int, b: int): int { if a < b then b else a }

  function Min(a: int, b: int): int { if a < b then a else b }

  /** What comparing every pair would report for positions i and j, if anything. */
  function Report(s: seq<Event>, i: nat, j: nat): Conflict
    requires i < |s| && j < |s|
  {
    Conflict(i, j, Max(s[i].start, s[j].start), Min(s[i].end, s[j].end))
  }

  predicate During(t: int, start: int, end: int) { start <= t < end }

  /** An instant lies in the time reported if and only if it lies in both events. */
  ghost predicate IsSharedTime(s: seq<Event>, c: Conflict) {
    && c.first < c.second < |s| && c.start < c.end
    && forall t ::
         During(t, c.start, c.end) <==>
         During(t, s[c.first].start, s[c.first].end) && During(t, s[c.second].start, s[c.second].end)
  }

  /** Events clash when they are different ones and some instant lies in both. */
  lemma ClashIsASharedInstant(a: Event, b: Event)
    requires a.start < a.end && b.start < b.end
    ensures Clash(a, b) <==>
            a.id != b.id && exists t :: During(t, a.start, a.end) && During(t, b.start, b.end)
  {
    if Clash(a, b) {
      assert During(Max(a.start, b.start), a.start, a.end) && During(Max(a.start, b.start), b.start, b.end);
    }
  }

  predicate Earlier(a: Conflict, b: Conflict) {
    a.first < b.first || (a.first == b.first && a.second < b.second)
  }

  /** The conflicts of rows before i, and of row i before column j: each pair once, in order. */
  ghost predicate ComparedUpTo(s: seq<Event>, i: int, j: int, found: seq<Conflict>) {
    && (forall c :: c in found <==>
          && c.first < c.second < |s| && Clash(s[c.first], s[c.second])
          && c == Report(s, c.first, c.second)
          && (c.first < i || (c.first == i && c.second < j)))
    && (forall k, l :: 0 <= k < l < |found| ==> Earlier(found[k], found[l]))
  }

  lemma Found(s: seq<Event>, i: nat, j: nat, found: seq<Conflict>)
    requires i < j < |s| && ComparedUpTo(s, i, j, found)
    ensures Clash(s[i], s[j]) ==> ComparedUpTo(s, i, j + 1, found + [Report(s, i, j)])
    ensures !Clash(s[i], s[j]) ==> ComparedUpTo(s, i, j + 1, found)
  {
    if Clash(s[i], s[j]) {
      var more := found + [Report(s, i, j)];
      forall k, l | 0 <= k < l < |more| ensures Earlier(more[k], more[l]) {
        assert more[k] in found;
      }
    }
  }

  /** The break is safe: in start order nothing beyond the first non-overlapping start can clash. */
  lemma BreakIsSafe(s: seq<Event>, i: nat, j: nat, found: seq<Conflict>)
    requires SortedBy(ByTime, s) && i < j <= |s| && ComparedUpTo(s, i, j, found)
    requires j < |s| ==> s[j].start >= s[i].end
    ensures ComparedUpTo(s, i + 1, i + 2, found)
  {
    forall k | j <= k < |s| ensures !Clash(s[i], s[k]) {
      if k > j { assert ByTime(s[j], s[k]); }
    }
  }

  lemma ByTimeOrders()
    ensures TotalPreorder(ByTime)
  {
  }

  /** What comparing every pair of positions reports, each once, in order. */
  ghost predicate IsBruteForce(s: seq<Event>, found: seq<Conflict>) {
    && (forall c :: c in found <==>
          c.first < c.second < |s| && Clash(s[c.first], s[c.second]) && c == Report(s, c.first, c.second))
    && (forall k, l :: 0 <= k < l < |found| ==> Earlier(found[k], found[l]))
  }

  ghost predicate RowByRow(found: seq<Conflict>) {
    forall k, l :: 0 <= k < l < |found| ==>
      found[k].first <= found[l].first && (found[k].first == found[l].first ==> found[k].second < found[l].second)
  }

  /** By start, then by end, then by identity. */
  ghost predicate StartEndId(s: seq<Event>) {
    forall k, l :: 0 <= k < l < |s| ==>
      && s[k].start <= s[l].start && (s[k].start == s[l].start ==> s[k].end <= s[l].end)
      && (s[k].start == s[l].start && s[k].end == s[l].end ==> s[k].id <= s[l].id)
  }

  lemma OrdersAreThese(s: seq<Event>, found: seq<Conflict>)
    requires SortedBy(ByTime, s) && IsBruteForce(s, found)
    ensures RowByRow(found) && StartEndId(s)
  {
    forall k, l | 0 <= k < l < |s|
      ensures s[k].start <= s[l].start && (s[k].start == s[l].start ==> s[k].end <= s[l].end)
      ensures s[k].start == s[l].start && s[k].end == s[l].end ==> s[k].id <= s[l].id
    {
      assert ByTime(s[k], s[l]);
    }
    forall k, l | 0 <= k < l < |found|
      ensures found[k].first <= found[l].first
      ensures found[k].first == found[l].first ==> found[k].second < found[l].second
    {
      assert Earlier(found[k], found[l]);
    }
  }

  method SweepRow(s: seq<Event>, i: nat, before: seq<Conflict>) returns (found: seq<Conflict>)
    requires i < |s| && SortedBy(ByTime, s) && forall k :: 0 <= k < |s| ==> s[k].start < s[k].end
    requires ComparedUpTo(s, i, i + 1, before)
    ensures ComparedUpTo(s, i + 1, i + 2, found)
  {
    var first := s[i];
    found := before;
    var j := i + 1;
    while j < |s|
      invariant i < j <= |s| && ComparedUpTo(s, i, j, found)
    {
      var second := s[j];
      assert ByTime(first, second);
      if second.start >= first.end { break; }
      Found(s, i, j, found);
      if !(first.id == second.id || second.end <= first.start) {
        found := found + [Report(s, i, j)];
      }
      j := j + 1;
    }
    BreakIsSafe(s, i, j, found);
  }

  method Sweep(s: seq<Event>) returns (found: seq<Conflict>)
    requires SortedBy(ByTime, s) && forall k :: 0 <= k < |s| ==> s[k].start < s[k].end
    ensures IsBruteForce(s, found)
  {
    found := [];
    var i := 0;
    while i < |s|
      invariant 0 <= i <= |s| && ComparedUpTo(s, i, i + 1, found)
    {
      found := SweepRow(s, i, found);
      i := i + 1;
    }
  }

  /**
   The sorted sweep with its early break reports what comparing all pairs would: each unordered
   pair of upcoming events with different identities and a common instant, once, with the
   non-empty time they share.
   */
  method Conflicts(events: seq<Event>, now: int, horizon: int)
    returns (r: Option<seq<Conflict>>, upcoming: seq<Event>)
    requires forall e :: e in events ==> e.Valid()
    ensures r.None? <==> horizon <= 0 || horizon > 7 * DAY
    ensures r.Some? ==>
      && multiset(upcoming) == multiset(Filter(events, now, horizon))
      && SortedBy(ByTime, upcoming) && IsBruteForce(upcoming, r.value)
      && (forall c :: c in r.value ==> IsSharedTime(upcoming, c))
      && RowByRow(r.value) && StartEndId(upcoming)
    ensures r.Some? ==> forall e ::
      e in upcoming <==>
      e in events && !e.allDay && !e.cancelled && e.end > now && e.start <= now + horizon
  {
    upcoming := [];
    if horizon <= 0 || horizon > 7 * DAY { return None, upcoming; }
    var filtered := Filter(events, now, horizon);
    upcoming := Sort(ByTime, filtered);
    ByTimeOrders();
    SortSorts(ByTime, filtered);
    SameElements(upcoming, filtered);
    forall k | 0 <= k < |upcoming| ensures upcoming[k].start < upcoming[k].end {
      assert upcoming[k] in filtered;
    }
    var found := Sweep(upcoming);
    OrdersAreThese(upcoming, found);
    return Some(found), upcoming;
  }
}
