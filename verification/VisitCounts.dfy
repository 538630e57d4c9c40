/**
 Counting trips: `qualifying_visit_count` (backend/app/location_settings.py). Days are day numbers;
 a trip is a maximal run of days covered by the confirmed overnight visits of one country.
 */
module VisitCounts {
  import opened StableSort

  datatype Visit = Visit(country: string, first: int, last: int, overnight: bool)

  datatype Range = Range(first: int, last: int)

  predicate Qualifies(e: Visit) { e.overnight && e.last > e.first }

  // ----- the simple form: days -----

  ghost predicate Covered(ranges: seq<Range>, d: int) { exists r :: r in ranges && r.first <= d <= r.last }

  /** The last days, from the cutoff on, of the runs of covered days. */
  ghost function TripEnds(ranges: seq<Range>, cutoff: int): (ends: set<int>)
    ensures forall d :: d in ends ==> d >= cutoff && Covered(ranges, d) && !Covered(ranges, d + 1)
  {
    set r | r in ranges && r.first <= r.last && r.last >= cutoff && !Covered(ranges, r.last + 1) :: r.last
  }

  /** It is exactly the covered days from the cutoff on whose next day is not covered. */
  lemma TripEndsAreRunEnds(ranges: seq<Range>, cutoff: int, d: int)
    ensures d in TripEnds(ranges, cutoff) <==> d >= cutoff && Covered(ranges, d) && !Covered(ranges, d + 1)
  {
    if Covered(ranges, d) && !Covered(ranges, d + 1) {
      var r :| r in ranges && r.first <= d <= r.last;
      assert r.last == d;
    }
  }

  lemma SameDaysSameEnds(a: seq<Range>, b: seq<Range>, cutoff: int)
    requires SameDays(a, b)
    ensures TripEnds(a, cutoff) == TripEnds(b, cutoff)
  {
    forall d ensures d in TripEnds(a, cutoff) <==> d in TripEnds(b, cutoff) {
      TripEndsAreRunEnds(a, cutoff, d);
      TripEndsAreRunEnds(b, cutoff, d);
    }
  }

  /** The confirmed overnight ranges of one country, in the order of the events. */
  function RangesOf(events: seq<Visit>, country: string): (ranges: seq<Range>)
    ensures forall r :: r in ranges <==>
      exists e :: e in events && Qualifies(e) && e.country == country && r == Range(e.first, e.last)
  {
    if events == [] then []
    else
      var e := events[|events| - 1];
      var before := RangesOf(events[..|events| - 1], country);
      assert forall x :: x in events <==> x in events[..|events| - 1] || x == e;
      if Qualifies(e) && e.country == country then before + [Range(e.first, e.last)] else before
  }

  // ----- merging -----

  predicate ByDates(a: Range, b: Range) { a.first < b.first || (a.first == b.first && a.last <= b.last) }

  /** Merged ranges: none empty, and at least one uncovered day between one and the next. */
  ghost predicate Separated(merged: seq<Range>) {
    && (forall i :: 0 <= i < |merged| ==> merged[i].first <= merged[i].last)
    && (forall i, j :: 0 <= i < j < |merged| ==> merged[i].last + 1 < merged[j].first)
  }

  function CountRecent(merged: seq<Range>, cutoff: int): nat {
    if merged == [] then 0
    else CountRecent(merged[..|merged| - 1], cutoff) + (if merged[|merged| - 1].last >= cutoff then 1 else 0)
  }

  lemma CoveredAppend(ranges: seq<Range>, r: Range, d: int)
    ensures Covered(ranges + [r], d) <==> Covered(ranges, d) || r.first <= d <= r.last
  {
    if r.first <= d <= r.last { assert r in ranges + [r]; }
    if Covered(ranges, d) {
      var x :| x in ranges && x.first <= d <= x.last;
      assert x in ranges + [r];
    }
  }

  /** A range beyond all others, with a free day between, adds its own end and no other. */
  lemma EndsAppend(before: seq<Range>, r: Range, cutoff: int)
    requires r.first <= r.last && forall d :: Covered(before, d) ==> d + 1 < r.first
    ensures TripEnds(before + [r], cutoff) == TripEnds(before, cutoff) + (if r.last >= cutoff then {r.last} else {})
    ensures r.last !in TripEnds(before, cutoff)
  {
    forall d ensures d in TripEnds(before + [r], cutoff) <==>
                     d in TripEnds(before, cutoff) || (d == r.last && r.last >= cutoff)
    {
      TripEndsAreRunEnds(before + [r], cutoff, d);
      TripEndsAreRunEnds(before, cutoff, d);
      CoveredAppend(before, r, d);
      CoveredAppend(before, r, d + 1);
    }
  }

  lemma CoveredBelow(merged: seq<Range>, d: int)
    requires Separated(merged) && Covered(merged, d)
    ensures merged != [] && d <= merged[|merged| - 1].last
  {
    var r :| r in merged && r.first <= d <= r.last;
    var i :| 0 <= i < |merged| && merged[i] == r;
  }

  /** In separated ranges each run of days is one range, so the ends are the ranges' ends. */
  lemma {:induction false} CountIsEnds(merged: seq<Range>, cutoff: int)
    requires Separated(merged)
    ensures |TripEnds(merged, cutoff)| == CountRecent(merged, cutoff)
  {
    if merged != [] {
      var n := |merged| - 1;
      var before := merged[..n];
      assert merged == before + [merged[n]];
      CountIsEnds(before, cutoff);
      forall d | Covered(before, d) ensures d + 1 < merged[n].first {
        CoveredBelow(before, d);
      }
      EndsAppend(before, merged[n], cutoff);
    }
  }

  lemma ByDatesOrders()
    ensures TotalPreorder(ByDates)
  {
  }

  ghost predicate SameDays(a: seq<Range>, b: seq<Range>) { forall d :: Covered(a, d) <==> Covered(b, d) }

  /** The trips of one country, merged in date order and counted. */
  method MergedCount(ranges: seq<Range>, cutoff: int) returns (count: nat)
    requires forall r :: r in ranges ==> r.first <= r.last
    ensures count == |TripEnds(ranges, cutoff)|
  {
    var ordered := Sort(ByDates, ranges);
    ByDatesOrders();
    SortSorts(ByDates, ranges);
    SameElements(ordered, ranges);
    var merged := MergeOrdered(ordered);
    count := CountEnded(merged, cutoff);
    CountIsEnds(merged, cutoff);
    assert SameDays(ordered, ranges);
    SameDaysSameEnds(merged, ranges, cutoff);
  }

  /** The sweep: extends the last merged range or opens a new one. */
  method MergeOrdered(ordered: seq<Range>) returns (merged: seq<Range>)
    requires SortedBy(ByDates, ordered) && forall r :: r in ordered ==> r.first <= r.last
    ensures Separated(merged) && SameDays(merged, ordered)
  {
    merged := [];
    for k := 0 to |ordered|
      invariant Separated(merged) && SameDays(merged, ordered[..k])
      invariant merged == [] || (k > 0 && merged[|merged| - 1].first <= ordered[k - 1].first)
    {
      ghost var was := merged;
      assert k > 0 ==> ByDates(ordered[k - 1], ordered[k]);
      merged := MergeOne(merged, ordered[k]);
      assert ordered[..k + 1] == ordered[..k] + [ordered[k]];
      Absorbed(was, ordered[k], merged, ordered[..k]);
    }
    assert ordered[..|ordered|] == ordered;
  }

  /** One round of the loop, for a range that starts no earlier than the last merged one. */
  method MergeOne(was: seq<Range>, r: Range) returns (merged: seq<Range>)
    requires Separated(was) && r.first <= r.last && (was != [] ==> was[|was| - 1].first <= r.first)
    ensures Separated(merged) && merged != [] && merged[|merged| - 1].first <= r.first
    ensures forall d :: Covered(merged, d) <==> Covered(was, d) || r.first <= d <= r.last
  {
    merged := was;
    if merged != [] && r.first <= merged[|merged| - 1].last + 1 {
      var n := |merged| - 1;
      merged := merged[n := Range(merged[n].first, if merged[n].last >= r.last then merged[n].last else r.last)];
      forall d ensures Covered(merged, d) <==> Covered(was, d) || r.first <= d <= r.last {
        Extended(was, r, merged, d);
      }
    } else {
      merged := merged + [r];
      forall d ensures Covered(merged, d) <==> Covered(was, d) || r.first <= d <= r.last {
        CoveredAppend(was, r, d);
      }
    }
  }

  lemma Absorbed(was: seq<Range>, r: Range, merged: seq<Range>, before: seq<Range>)
    requires SameDays(was, before)
    requires forall d :: Covered(merged, d) <==> Covered(was, d) || r.first <= d <= r.last
    ensures SameDays(merged, before + [r])
  {
    forall d ensures Covered(merged, d) <==> Covered(before + [r], d) {
      CoveredAppend(before, r, d);
    }
  }

  /** The number of merged ranges that end on or after the cutoff. */
  method CountEnded(merged: seq<Range>, cutoff: int) returns (count: nat)
    ensures count == CountRecent(merged, cutoff)
  {
    count := 0;
    for m := 0 to |merged|
      invariant count == CountRecent(merged[..m], cutoff)
    {
      assert merged[..m + 1][..m] == merged[..m];
      if merged[m].last >= cutoff { count := count + 1; }
    }
    assert merged[..|merged|] == merged;
  }

  /** Widening the last merged range adds the days of a range that meets or touches it. */
  lemma Extended(was: seq<Range>, r: Range, merged: seq<Range>, d: int)
    requires was != [] && |merged| == |was|
    requires
      var last := was[|was| - 1];
      && last.first <= last.last && last.first <= r.first <= last.last + 1 && r.first <= r.last
      && merged == was[..|was| - 1] + [Range(last.first, if last.last >= r.last then last.last else r.last)]
    ensures Covered(merged, d) <==> Covered(was, d) || r.first <= d <= r.last
  {
    var before, last := was[..|was| - 1], was[|was| - 1];
    assert was == before + [last];
    CoveredAppend(before, last, d);
    CoveredAppend(before, merged[|was| - 1], d);
  }

  /**
   Per country, the number of days from the cutoff on that end a run of days away; a country without
   one is not listed.
   */
  method QualifyingVisitCount(events: seq<Visit>, today: int) returns (counts: map<string, nat>)
    ensures forall country :: Counted(TripEnds(RangesOf(events, country), today - 365), counts, country)
  {
    var trips := GroupRanges(events);
    counts := map[];
    var left := trips.Keys;
    while left != {}
      invariant left <= trips.Keys
      invariant forall country :: country in counts ==> country in trips && country !in left
      invariant forall country ::
                  country in trips && country !in left ==>
                    Counted(TripEnds(trips[country], today - 365), counts, country)
      decreases left
    {
      var country :| country in left;
      var count := MergedCount(trips[country], today - 365);
      if count > 0 { counts := counts[country := count]; }
      left := left - {country};
    }
    forall country ensures Counted(TripEnds(RangesOf(events, country), today - 365), counts, country) {
      assert RangesOf(events, country) == Grouped(trips, country);
    }
  }

  /** The days of a country are counted, and a country without one is not listed. */
  ghost predicate Counted(ends: set<int>, counts: map<string, nat>, country: string) {
    && (country in counts <==> ends != {})
    && (country in counts ==> counts[country] == |ends|)
  }

  function Grouped(trips: map<string, seq<Range>>, country: string): seq<Range> {
    if country in trips then trips[country] else []
  }

  /** The loop that collects the confirmed overnight ranges of each country. */
  method GroupRanges(events: seq<Visit>) returns (trips: map<string, seq<Range>>)
    ensures forall country :: RangesOf(events, country) == Grouped(trips, country)
    ensures forall country, r :: country in trips && r in trips[country] ==> r.first <= r.last
  {
    trips := map[];
    assert events[..0] == [];
    for k := 0 to |events|
      invariant forall country :: RangesOf(events[..k], country) == Grouped(trips, country)
      invariant forall country, r :: country in trips && r in trips[country] ==> r.first <= r.last
    {
      var e := events[k];
      assert events[..k + 1][..k] == events[..k];
      if e.overnight && e.last > e.first {
        trips := trips[e.country := Grouped(trips, e.country) + [Range(e.first, e.last)]];
      }
    }
    assert events[..|events|] == events;
  }

  /** Hence the counts depend neither on the order of the events nor on repeated ones. */
  lemma OrderAndRepetitionDoNotCount(a: seq<Visit>, b: seq<Visit>, country: string, cutoff: int)
    requires forall e :: e in a <==> e in b
    ensures TripEnds(RangesOf(a, country), cutoff) == TripEnds(RangesOf(b, country), cutoff)
  {
    assert forall r :: r in RangesOf(a, country) <==> r in RangesOf(b, country);
    SameDaysSameEnds(RangesOf(a, country), RangesOf(b, country), cutoff);
  }
}
