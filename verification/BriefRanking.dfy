/**
 The ranking of a brief: `build_brief` (backend/app/proactivity.py), with its dictionary of strongest
 observations, against the simple form "sort by score, keep the first of each title, take five".
 */
module BriefRanking {
  import opened Wrappers
  import opened StableSort
  import Rhythms

  datatype Category =
    | Today | Commitment | PrivateMail | Family | Movement | Finance | Sports | PersonalAdmin | Home
    | Training | NextWeek | Enjoyment | Costs | Health | Documents | Goals | Preparation | Reflection

  datatype Evidence = Evidence(current: bool, covered: bool, authority: string, verified: bool, competitive: bool)

  /** The score is any number: how four factors make it up does not matter for the ranking. */
  datatype BriefItem = BriefItem(category: Category, title: string, score: real, evidence: Option<Evidence>)

  const MINIMUM_ATTENTION_SCORE: real := 0.20
  const MAX_BRIEF_ITEMS: nat := 5

  function Allowed(rhythm: Rhythms.RhythmKey): set<Category> {
    match rhythm
    case Morning => {Today, Commitment, PrivateMail, Family, Movement, Finance, Sports}
    case Friday => {Commitment, PersonalAdmin, Home, Training, NextWeek, Enjoyment}
    case Monthly => {Commitment, Costs, Finance, Health, Documents}
    case Quarterly => {Commitment, Goals, Preparation, Enjoyment}
    case Annual => {Reflection}
  }

  predicate Grounded(item: BriefItem) {
    item.category in {Finance, Sports} ==>
      && item.evidence.Some?
      && item.evidence.value.current && item.evidence.value.covered
      && (item.category == Sports ==>
            && item.evidence.value.authority == "official_primary"
            && item.evidence.value.verified && item.evidence.value.competitive)
  }

  predicate Eligible(rhythm: Rhythms.RhythmKey, item: BriefItem) {
    item.category in Allowed(rhythm) && Grounded(item) && item.score >= MINIMUM_ATTENTION_SCORE
  }

  /** Why an item is not considered: its category, its score, or evidence that finance and sport must have. */
  lemma RejectedExactlyWhen(rhythm: Rhythms.RhythmKey, item: BriefItem)
    ensures
      !Eligible(rhythm, item) <==>
      || item.category !in Allowed(rhythm) || item.score < 0.20
      || ((item.category == Finance || item.category == Sports)
          && (item.evidence.None? || !item.evidence.value.current || !item.evidence.value.covered))
      || (item.category == Sports
          && (|| item.evidence.value.authority != "official_primary"
              || !item.evidence.value.verified || !item.evidence.value.competitive))
  {
  }

  datatype Key = Key(category: Category, title: string)

  datatype Ranked = Ranked(position: nat, item: BriefItem)

  /** `fold` stands for stripping and case folding a title. */
  function KeyOf(fold: string -> string, r: Ranked): Key { Key(r.item.category, fold(r.item.title)) }

  function EligibleFrom(rhythm: Rhythms.RhythmKey, candidates: seq<BriefItem>, from: nat): (r: seq<Ranked>)
    requires from <= |candidates|
    ensures forall x ::
              x in r <==>
              && from <= x.position < |candidates|
              && x.item == candidates[x.position]
              && Eligible(rhythm, x.item)
    ensures Positioned(r)
    decreases |candidates| - from
  {
    if from == |candidates| then []
    else
      var rest := EligibleFrom(rhythm, candidates, from + 1);
      assert forall i :: 0 <= i < |rest| ==> rest[i] in rest;
      if Eligible(rhythm, candidates[from]) then [Ranked(from, candidates[from])] + rest else rest
  }

  predicate Positioned(s: seq<Ranked>) {
    forall i, j :: 0 <= i < j < |s| ==> s[i].position < s[j].position
  }

  // ----- the simple form -----

  predicate ByScore(a: Ranked, b: Ranked) { a.item.score >= b.item.score }

  function FirstOfEach(fold: string -> string, s: seq<Ranked>): seq<Ranked> {
    if s == [] then []
    else
      var before, last := s[..|s| - 1], s[|s| - 1];
      if exists x :: x in before && KeyOf(fold, x) == KeyOf(fold, last) then FirstOfEach(fold, before)
      else FirstOfEach(fold, before) + [last]
  }

  function Items(s: seq<Ranked>): (r: seq<BriefItem>)
    ensures |r| == |s|
  {
    seq(|s|, i requires 0 <= i < |s| => s[i].item)
  }

  function FirstFive(s: seq<Ranked>): seq<Ranked> {
    if |s| <= MAX_BRIEF_ITEMS then s else s[..MAX_BRIEF_ITEMS]
  }

  function SimpleBrief(rhythm: Rhythms.RhythmKey, fold: string -> string, candidates: seq<BriefItem>): seq<BriefItem> {
    Items(FirstFive(FirstOfEach(fold, Sort(ByScore, EligibleFrom(rhythm, candidates, 0)))))
  }

  // ----- score ties broken by position -----

  predicate ByRank(a: Ranked, b: Ranked) {
    a.item.score > b.item.score || (a.item.score == b.item.score && a.position <= b.position)
  }

  /** A stable sort by score alone leaves equals in source order. */
  lemma {:induction false} ScoreThenPosition(s: seq<Ranked>)
    requires Positioned(s)
    ensures Sort(ByScore, s) == Sort(ByRank, s)
  {
    if s != [] {
      ScoreThenPosition(s[1..]);
      var rest := Sort(ByRank, s[1..]);
      SameElements(rest, s[1..]);
      InsertAgrees(ByScore, ByRank, s[0], rest);
    }
  }

  /** x is the highest-ranked of its key in s. */
  ghost predicate Best(fold: string -> string, s: seq<Ranked>, x: Ranked) {
    x in s && forall y :: y in s && KeyOf(fold, y) == KeyOf(fold, x) ==> ByRank(x, y)
  }

  lemma {:induction false} FirstIsBest(fold: string -> string, s: seq<Ranked>)
    requires Strictly(ByRank, s)
    ensures var f := FirstOfEach(fold, s);
            Strictly(ByRank, f) && forall x :: x in f <==> Best(fold, s, x)
  {
    if s != [] {
      var before, last := s[..|s| - 1], s[|s| - 1];
      assert s == before + [last];
      var f := FirstOfEach(fold, before);
      FirstIsBest(fold, before);
      assert forall x :: x in f ==> x in before;
      forall x ensures x in FirstOfEach(fold, s) <==> Best(fold, s, x) {
        BestOfOneMore(fold, before, last, x);
        assert s == before + [last];
      }
      LastIsWorse(before, last);
      StrictSnoc(ByRank, f, last);
    }
  }

  lemma LastIsWorse(before: seq<Ranked>, last: Ranked)
    requires Strictly(ByRank, before + [last])
    ensures forall x :: x in before ==> ByRank(x, last) && !ByRank(last, x)
  {
    forall x | x in before ensures ByRank(x, last) && !ByRank(last, x) {
      var i :| 0 <= i < |before| && before[i] == x;
      assert (before + [last])[i] == x && (before + [last])[|before|] == last;
    }
  }

  /** A last, worse element is the best of its key only when it is the first of it. */
  lemma BestOfOneMore(fold: string -> string, before: seq<Ranked>, last: Ranked, x: Ranked)
    requires Strictly(ByRank, before + [last])
    ensures Best(fold, before + [last], x) <==>
            || Best(fold, before, x)
            || (x == last && forall y :: y in before ==> KeyOf(fold, y) != KeyOf(fold, last))
  {
    LastIsWorse(before, last);
    assert forall y :: y in before + [last] <==> y in before || y == last;
    assert x != last && Best(fold, before, x) ==> Best(fold, before + [last], x);
  }

  // ----- the dictionary -----

  ghost predicate Strongest(fold: string -> string, s: seq<Ranked>, strongest: map<Key, Ranked>) {
    && (forall key :: key in strongest ==> KeyOf(fold, strongest[key]) == key && Best(fold, s, strongest[key]))
    && forall x :: x in s ==> KeyOf(fold, x) in strongest
  }

  /** `order` lists the keys of the dictionary as they were first inserted. */
  ghost predicate InsertionOrder(strongest: map<Key, Ranked>, order: seq<Key>) {
    && (forall key :: key in strongest <==> key in order)
    && forall i, j :: 0 <= i < j < |order| ==> order[i] != order[j]
  }

  lemma StrongestOfOneMore(fold: string -> string, s: seq<Ranked>, strongest: map<Key, Ranked>, x: Ranked)
    requires Positioned(s + [x]) && Strongest(fold, s, strongest)
    ensures var key := KeyOf(fold, x);
            if key !in strongest || x.item.score > strongest[key].item.score
            then Strongest(fold, s + [x], strongest[key := x])
            else Strongest(fold, s + [x], strongest)
  {
    var key := KeyOf(fold, x);
    var t := s + [x];
    assert forall y :: y in t <==> y in s || y == x;
    forall y | y in s ensures y.position < x.position {
      var i :| 0 <= i < |s| && s[i] == y;
      assert t[i] == y && t[|s|] == x;
    }
    forall other | other in strongest && other != key ensures Best(fold, t, strongest[other]) {
      assert Best(fold, s, strongest[other]);
    }
    if key in strongest {
      assert Best(fold, s, strongest[key]);
      if x.item.score > strongest[key].item.score {
        assert Best(fold, t, x);
      } else {
        assert Best(fold, t, strongest[key]);
      }
    } else {
      assert Best(fold, t, x);
    }
  }

  function Values(strongest: map<Key, Ranked>, order: seq<Key>): (r: seq<Ranked>)
    requires forall key :: key in order ==> key in strongest
    ensures |r| == |order|
  {
    seq(|order|, i requires 0 <= i < |order| => strongest[order[i]])
  }

  /** Ranking the dictionary's values gives the first of each key of the ranked whole. */
  lemma ValuesRankAsFirsts(fold: string -> string, s: seq<Ranked>, strongest: map<Key, Ranked>, order: seq<Key>)
    requires Positioned(s) && Strongest(fold, s, strongest) && InsertionOrder(strongest, order)
    ensures Sort(ByRank, Values(strongest, order)) == FirstOfEach(fold, Sort(ByScore, s))
  {
    var values := Values(strongest, order);
    var sorted := Sort(ByRank, s);
    ScoreThenPosition(s);
    SortIsStrict(ByRank, s);
    SameElements(sorted, s);
    FirstIsBest(fold, sorted);
    ValuesAreBest(fold, s, strongest, order);
    SortIsStrict(ByRank, values);
    SameElements(Sort(ByRank, values), values);
    assert forall x :: Best(fold, sorted, x) <==> Best(fold, s, x);
    StrictlySortedIsUnique(ByRank, Sort(ByRank, values), FirstOfEach(fold, sorted));
  }

  lemma ValuesAreBest(fold: string -> string, s: seq<Ranked>, strongest: map<Key, Ranked>, order: seq<Key>)
    requires Positioned(s) && Strongest(fold, s, strongest) && InsertionOrder(strongest, order)
    ensures forall x :: x in Values(strongest, order) <==> Best(fold, s, x)
    ensures NoTies(ByRank, Values(strongest, order))
  {
    var values := Values(strongest, order);
    forall x | x in values ensures Best(fold, s, x) {
      var i :| 0 <= i < |values| && values[i] == x;
      assert strongest[order[i]] == x && order[i] in order;
    }
    forall x | Best(fold, s, x) ensures x in values {
      var key := KeyOf(fold, x);
      assert key in strongest && key in order;
      var i :| 0 <= i < |order| && order[i] == key;
      assert Best(fold, s, values[i]);
      SameRankIsSame(s, x, values[i]);
      assert values[i] == x;
    }
    forall i, j | 0 <= i < j < |values| ensures !(ByRank(values[i], values[j]) && ByRank(values[j], values[i])) {
      assert order[i] in order && order[j] in order;
      assert Best(fold, s, values[i]) && Best(fold, s, values[j]);
      SameRankIsSame(s, values[i], values[j]);
    }
  }

  lemma SameRankIsSame(s: seq<Ranked>, x: Ranked, y: Ranked)
    requires Positioned(s) && x in s && y in s
    ensures ByRank(x, y) && ByRank(y, x) ==> x == y
  {
    var i :| 0 <= i < |s| && s[i] == x;
    var j :| 0 <= j < |s| && s[j] == y;
  }

  lemma RankedIsSimple(rhythm: Rhythms.RhythmKey, fold: string -> string, candidates: seq<BriefItem>,
                       strongest: map<Key, Ranked>, order: seq<Key>)
    requires Strongest(fold, EligibleFrom(rhythm, candidates, 0), strongest) && InsertionOrder(strongest, order)
    ensures Items(FirstFive(Sort(ByRank, Values(strongest, order)))) == SimpleBrief(rhythm, fold, candidates)
  {
    ValuesRankAsFirsts(fold, EligibleFrom(rhythm, candidates, 0), strongest, order);
  }

  // ----- which items a brief shows -----

  predicate Outranks(candidates: seq<BriefItem>, p: nat, q: nat)
    requires p < |candidates| && q < |candidates|
  {
    candidates[p].score > candidates[q].score || (candidates[p].score == candidates[q].score && p < q)
  }

  /** Another eligible candidate with the same title and category ranks higher. */
  ghost predicate Superseded(
    rhythm: Rhythms.RhythmKey, fold: string -> string, candidates: seq<BriefItem>, p: nat)
    requires p < |candidates|
  {
    exists q :: 0 <= q < |candidates| && Eligible(rhythm, candidates[q]) && Outranks(candidates, q, p)
                && candidates[q].category == candidates[p].category
                && fold(candidates[q].title) == fold(candidates[p].title)
  }

  /** An eligible candidate that de-duplication leaves in. */
  ghost predicate Stays(rhythm: Rhythms.RhythmKey, fold: string -> string, candidates: seq<BriefItem>, p: int) {
    && 0 <= p < |candidates| && Eligible(rhythm, candidates[p])
    && !Superseded(rhythm, fold, candidates, p)
  }

  /** The five that rank highest of all that stay, in the order of their rank. */
  ghost predicate IsBrief(
    rhythm: Rhythms.RhythmKey, fold: string -> string, candidates: seq<BriefItem>, chosen: seq<nat>)
  {
    && |chosen| <= 5
    && (forall i :: 0 <= i < |chosen| ==> Stays(rhythm, fold, candidates, chosen[i]))
    && (forall i, j :: 0 <= i < j < |chosen| ==> Outranks(candidates, chosen[i], chosen[j]))
    && (forall p: nat :: Stays(rhythm, fold, candidates, p) && p !in chosen ==>
          |chosen| == 5 && forall i :: 0 <= i < |chosen| ==> Outranks(candidates, chosen[i], p))
  }

  function Positions(s: seq<Ranked>): (r: seq<nat>)
    ensures |r| == |s| && forall i :: 0 <= i < |s| ==> r[i] == s[i].position
  {
    seq(|s|, i requires 0 <= i < |s| => s[i].position)
  }

  /** To be the best of one's key is to stay. */
  lemma BestStays(rhythm: Rhythms.RhythmKey, fold: string -> string, candidates: seq<BriefItem>, p: nat)
    requires p < |candidates| && Eligible(rhythm, candidates[p])
    ensures Best(fold, EligibleFrom(rhythm, candidates, 0), Ranked(p, candidates[p])) <==>
            Stays(rhythm, fold, candidates, p)
  {
    var eligible, x := EligibleFrom(rhythm, candidates, 0), Ranked(p, candidates[p]);
    assert x in eligible;
    if Superseded(rhythm, fold, candidates, p) {
      var q :| 0 <= q < |candidates| && Eligible(rhythm, candidates[q]) && Outranks(candidates, q, p)
               && candidates[q].category == candidates[p].category
               && fold(candidates[q].title) == fold(candidates[p].title);
      var y := Ranked(q, candidates[q]);
      assert y in eligible && KeyOf(fold, y) == KeyOf(fold, x) && !ByRank(x, y);
    } else {
      forall y | y in eligible && KeyOf(fold, y) == KeyOf(fold, x) ensures ByRank(x, y) {
        assert !Outranks(candidates, y.position, p);
      }
    }
  }

  /** The ranked list of those that stay: all of them, each over the next. */
  lemma RankedStay(rhythm: Rhythms.RhythmKey, fold: string -> string, candidates: seq<BriefItem>, f: seq<Ranked>)
    requires f == FirstOfEach(fold, Sort(ByScore, EligibleFrom(rhythm, candidates, 0)))
    ensures Strictly(ByRank, f)
    ensures forall x :: x in f ==> Stays(rhythm, fold, candidates, x.position) && x.item == candidates[x.position]
    ensures forall p: nat :: Stays(rhythm, fold, candidates, p) ==> Ranked(p, candidates[p]) in f
  {
    var eligible := EligibleFrom(rhythm, candidates, 0);
    var sorted := Sort(ByRank, eligible);
    ScoreThenPosition(eligible);
    SortIsStrict(ByRank, eligible);
    SameElements(sorted, eligible);
    FirstIsBest(fold, sorted);
    assert forall x :: Best(fold, sorted, x) <==> Best(fold, eligible, x);
    forall x | x in f ensures Stays(rhythm, fold, candidates, x.position) && x.item == candidates[x.position] {
      BestStays(rhythm, fold, candidates, x.position);
    }
    forall p: nat | Stays(rhythm, fold, candidates, p) ensures Ranked(p, candidates[p]) in f {
      BestStays(rhythm, fold, candidates, p);
    }
  }

  function Picked(candidates: seq<BriefItem>, chosen: seq<nat>): (r: seq<BriefItem>)
    requires forall i :: 0 <= i < |chosen| ==> chosen[i] < |candidates|
    ensures |r| == |chosen|
  {
    seq(|chosen|, i requires 0 <= i < |chosen| => candidates[chosen[i]])
  }

  /** The items of a list, each over the next, are those of the candidates. */
  ghost predicate RanksCandidates(candidates: seq<BriefItem>, f: seq<Ranked>) {
    && Strictly(ByRank, f)
    && forall i :: 0 <= i < |f| ==> f[i].position < |candidates| && f[i].item == candidates[f[i].position]
  }

  lemma EarlierOutranks(candidates: seq<BriefItem>, f: seq<Ranked>, i: nat, k: nat)
    requires RanksCandidates(candidates, f) && i < k < |f|
    ensures Outranks(candidates, f[i].position, f[k].position)
  {
  }

  /** What the first five leave out is outranked by all five. */
  lemma LeftOutIsOutranked(candidates: seq<BriefItem>, f: seq<Ranked>, chosen: seq<nat>, p: nat)
    requires RanksCandidates(candidates, f) && chosen == Positions(FirstFive(f))
    requires p < |candidates| && Ranked(p, candidates[p]) in f && p !in chosen
    ensures |chosen| == 5
    ensures forall i :: 0 <= i < |chosen| ==> chosen[i] < |candidates| && Outranks(candidates, chosen[i], p)
  {
    var k :| 0 <= k < |f| && f[k] == Ranked(p, candidates[p]);
    assert forall i :: 0 <= i < |chosen| ==> chosen[i] == f[i].position && chosen[i] in chosen;
    forall i | 0 <= i < |chosen| ensures chosen[i] < |candidates| && Outranks(candidates, chosen[i], p) {
      EarlierOutranks(candidates, f, i, k);
    }
  }

  lemma FirstFiveInOrder(candidates: seq<BriefItem>, f: seq<Ranked>, chosen: seq<nat>)
    requires RanksCandidates(candidates, f) && chosen == Positions(FirstFive(f))
    ensures |chosen| <= 5 && forall i :: 0 <= i < |chosen| ==> chosen[i] == f[i].position < |candidates|
    ensures forall i, j :: 0 <= i < j < |chosen| ==> Outranks(candidates, chosen[i], chosen[j])
    ensures Items(FirstFive(f)) == Picked(candidates, chosen)
  {
    forall i, j | 0 <= i < j < |chosen| ensures Outranks(candidates, f[i].position, f[j].position) {
      EarlierOutranks(candidates, f, i, j);
    }
  }

  /** The brief in rank order: five at most, and nothing that stays but is left out outranks one in it. */
  lemma SimpleBriefIsBest(rhythm: Rhythms.RhythmKey, fold: string -> string, candidates: seq<BriefItem>)
    returns (chosen: seq<nat>)
    ensures IsBrief(rhythm, fold, candidates, chosen)
    ensures SimpleBrief(rhythm, fold, candidates) == Picked(candidates, chosen)
  {
    var f := FirstOfEach(fold, Sort(ByScore, EligibleFrom(rhythm, candidates, 0)));
    RankedStay(rhythm, fold, candidates, f);
    assert forall i :: 0 <= i < |f| ==> f[i] in f;
    chosen := Positions(FirstFive(f));
    FirstFiveInOrder(candidates, f, chosen);
    forall p: nat | Stays(rhythm, fold, candidates, p) && p !in chosen
      ensures |chosen| == 5 && forall i :: 0 <= i < |chosen| ==> Outranks(candidates, chosen[i], p)
    {
      LeftOutIsOutranked(candidates, f, chosen, p);
    }
  }

  method BuildBrief(rhythm: Rhythms.RhythmKey, fold: string -> string, candidates: seq<BriefItem>)
    returns (brief: Option<seq<BriefItem>>, ghost chosen: seq<nat>)
    ensures brief.None? <==> forall item :: item in candidates ==> !Eligible(rhythm, item)
    ensures brief.Some? ==> brief.value == SimpleBrief(rhythm, fold, candidates)
    ensures IsBrief(rhythm, fold, candidates, chosen)
    ensures brief == if chosen == [] then None else Some(Picked(candidates, chosen))
  {
    var eligible := EligibleFrom(rhythm, candidates, 0);
    var strongest, order := NoteStrongest(fold, eligible);
    RankedIsSimple(rhythm, fold, candidates, strongest, order);
    EmptyBrief(rhythm, fold, candidates);
    chosen := SimpleBriefIsBest(rhythm, fold, candidates);
    var items := Items(FirstFive(Sort(ByRank, Values(strongest, order))));
    brief := if items == [] then None else Some(items);
  }

  /** A new key goes to the end of the insertion order, a replaced value keeps its place. */
  lemma OrderOfOneMore(strongest: map<Key, Ranked>, order: seq<Key>, key: Key, x: Ranked)
    requires InsertionOrder(strongest, order)
    ensures InsertionOrder(strongest[key := x], if key in strongest then order else order + [key])
  {
  }

  /** The loop that fills the dictionary. */
  method NoteStrongest(fold: string -> string, eligible: seq<Ranked>)
    returns (strongest: map<Key, Ranked>, order: seq<Key>)
    requires Positioned(eligible)
    ensures Strongest(fold, eligible, strongest) && InsertionOrder(strongest, order)
  {
    strongest, order := map[], [];
    for i := 0 to |eligible|
      invariant Strongest(fold, eligible[..i], strongest) && InsertionOrder(strongest, order)
    {
      var key := KeyOf(fold, eligible[i]);
      assert eligible[..i + 1] == eligible[..i] + [eligible[i]];
      StrongestOfOneMore(fold, eligible[..i], strongest, eligible[i]);
      OrderOfOneMore(strongest, order, key, eligible[i]);
      if key !in strongest {
        strongest, order := strongest[key := eligible[i]], order + [key];
      } else if eligible[i].item.score > strongest[key].item.score {
        strongest := strongest[key := eligible[i]];
      }
    }
    assert eligible[..|eligible|] == eligible;
  }

  lemma EmptyBrief(rhythm: Rhythms.RhythmKey, fold: string -> string, candidates: seq<BriefItem>)
    ensures SimpleBrief(rhythm, fold, candidates) == [] <==>
            forall item :: item in candidates ==> !Eligible(rhythm, item)
  {
    var eligible := EligibleFrom(rhythm, candidates, 0);
    var sorted := Sort(ByScore, eligible);
    SameElements(sorted, eligible);
    FirstsAreEmpty(fold, sorted);
    if i :| 0 <= i < |candidates| && Eligible(rhythm, candidates[i]) {
      assert Ranked(i, candidates[i]) in eligible;
    }
    if eligible != [] {
      assert eligible[0] in eligible;
    }
  }

  lemma {:induction false} FirstsAreEmpty(fold: string -> string, s: seq<Ranked>)
    ensures FirstOfEach(fold, s) == [] <==> s == []
  {
    if |s| > 1 {
      FirstsAreEmpty(fold, s[..|s| - 1]);
    }
  }
}
