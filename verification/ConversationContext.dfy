/**
 The bounded conversation context: `_bounded_conversation_context` and
 `specialist_conversation_context` (backend/app/governed_systems.py).
 */
module ConversationContext {
  import opened Wrappers
  import opened StableSort
  import opened Sums

  datatype Role = User | Assistant

  datatype Message = Message(role: Role, content: string, privateToLi: bool, allowed: seq<string>)

  /** Position, number of messages and content give the relevance; the words of the query are inside. */
  type Relevance = (nat, nat, string) -> real

  datatype Candidate = Candidate(relevance: real, index: nat, text: string)

  function Rendered(message: Message): string {
    (if message.role == User then "user" else "assistant") + ": " + message.content
  }

  lemma RenderedText(message: Message)
    ensures Rendered(message) == (if message.role.User? then "user: " else "assistant: ") + message.content
  {
    assert "user" + ": " == "user: " && "assistant" + ": " == "assistant: ";
  }

  /** Li sees everything; a specialist only what is disclosed to it by name. */
  predicate Permitted(message: Message, specialist: Option<string>) {
    specialist.Some? ==> !message.privateToLi && specialist.value in message.allowed
  }

  function CandidateAt(messages: seq<Message>, rank: Relevance, i: nat): Candidate
    requires i < |messages|
  {
    Candidate(rank(i, |messages|, messages[i].content), i, Rendered(messages[i]))
  }

  /** The candidates among the first n messages. */
  function Candidates(messages: seq<Message>, specialist: Option<string>, rank: Relevance, n: nat): (r: seq<Candidate>)
    requires n <= |messages|
    ensures forall x ::
              x in r <==>
              x.index < n && Permitted(messages[x.index], specialist) && x == CandidateAt(messages, rank, x.index)
    ensures Numbered(r)
  {
    if n == 0 then []
    else
      var rest := Candidates(messages, specialist, rank, n - 1);
      assert forall i :: 0 <= i < |rest| ==> rest[i] in rest;
      if Permitted(messages[n - 1], specialist) then rest + [CandidateAt(messages, rank, n - 1)] else rest
  }

  predicate Numbered(s: seq<Candidate>) {
    forall i, j :: 0 <= i < j < |s| ==> s[i].index < s[j].index
  }

  /** The most relevant first, the latest first among equals. */
  predicate ByRelevance(a: Candidate, b: Candidate) {
    a.relevance > b.relevance || (a.relevance == b.relevance && a.index >= b.index)
  }

  predicate ByIndex(a: Candidate, b: Candidate) { a.index <= b.index }

  // ----- packing -----

  function Length(): Candidate -> int { (x: Candidate) => |x.text| }

  /** The length of the texts joined by line feeds. */
  function Used(chosen: seq<Candidate>): int {
    Sum(Length(), chosen) + if chosen == [] then 0 else |chosen| - 1
  }

  function Cost(x: Candidate, chosen: seq<Candidate>): int {
    |x.text| + if chosen == [] then 0 else 1
  }

  function Packed(ranked: seq<Candidate>, budget: int): seq<Candidate> {
    if ranked == [] then []
    else
      var before, x := Packed(ranked[..|ranked| - 1], budget), ranked[|ranked| - 1];
      if Used(before) + Cost(x, before) > budget then before else before + [x]
  }

  function Join(chosen: seq<Candidate>): string {
    if chosen == [] then ""
    else if |chosen| == 1 then chosen[0].text
    else Join(chosen[..|chosen| - 1]) + "\n" + chosen[|chosen| - 1].text
  }

  /** The chosen messages, in the order of the conversation. */
  function Chosen(messages: seq<Message>, specialist: Option<string>, rank: Relevance, budget: int): seq<Candidate> {
    Sort(ByIndex, Packed(Sort(ByRelevance, Candidates(messages, specialist, rank, |messages|)), budget))
  }

  lemma UsedOneMore(chosen: seq<Candidate>, x: Candidate)
    ensures Used(chosen + [x]) == Used(chosen) + Cost(x, chosen)
  {
    Snoc(Length(), chosen, x);
  }

  lemma {:induction false} JoinedLength(chosen: seq<Candidate>)
    ensures |Join(chosen)| == Used(chosen)
  {
    if |chosen| == 1 {
      Snoc(Length(), [], chosen[0]);
      assert chosen == [] + [chosen[0]];
    } else if chosen != [] {
      JoinedLength(chosen[..|chosen| - 1]);
    }
  }

  lemma {:induction false} PackedFits(ranked: seq<Candidate>, budget: int)
    requires budget >= 0
    ensures Used(Packed(ranked, budget)) <= budget
    ensures multiset(Packed(ranked, budget)) <= multiset(ranked)
  {
    if ranked != [] {
      var rest, x := ranked[..|ranked| - 1], ranked[|ranked| - 1];
      PackedFits(rest, budget);
      UsedOneMore(Packed(rest, budget), x);
      assert ranked == rest + [x];
    }
  }

  lemma {:induction false} PackedIsMaximal(ranked: seq<Candidate>, budget: int, x: Candidate)
    requires x in ranked && x !in Packed(ranked, budget)
    ensures Used(Packed(ranked, budget)) + Cost(x, Packed(ranked, budget)) > budget
  {
    var rest, last := ranked[..|ranked| - 1], ranked[|ranked| - 1];
    assert ranked == rest + [last];
    UsedOneMore(Packed(rest, budget), last);
    if x in rest {
      PackedIsMaximal(rest, budget, x);
    }
  }

  // ----- what the context is -----

  /** Whole permitted messages of the conversation, in its order, none twice. */
  ghost predicate Excerpt(messages: seq<Message>, specialist: Option<string>, chosen: seq<Candidate>) {
    && Numbered(chosen)
    && forall x :: x in chosen ==>
         && x.index < |messages| && x.text == Rendered(messages[x.index])
         && (specialist.Some? ==>
               !messages[x.index].privateToLi && specialist.value in messages[x.index].allowed)
  }

  lemma ChosenIsExcerpt(messages: seq<Message>, specialist: Option<string>, rank: Relevance, budget: int)
    requires budget > 0
    ensures Excerpt(messages, specialist, Chosen(messages, specialist, rank, budget))
  {
    var candidates := Candidates(messages, specialist, rank, |messages|);
    var ranked := Sort(ByRelevance, candidates);
    var packed := Packed(ranked, budget);
    PackedFits(ranked, budget);
    SameElements(Sort(ByIndex, packed), packed);
    NumberedNoTwins(candidates, packed);
    SortIsStrict(ByIndex, packed);
    forall x | x in packed ensures x in candidates {
      assert x in multiset(packed);
    }
  }

  lemma {:induction false} AtMostOnce(s: seq<Candidate>, x: Candidate)
    requires Numbered(s)
    ensures multiset(s)[x] <= 1
  {
    if s != [] {
      var rest, last := s[..|s| - 1], s[|s| - 1];
      AtMostOnce(rest, x);
      assert s == rest + [last];
      if x == last {
        assert x !in rest;
      }
    }
  }

  lemma TwiceCounts(s: seq<Candidate>, i: nat, j: nat)
    requires i < j < |s| && s[i] == s[j]
    ensures multiset(s)[s[i]] >= 2
  {
    assert s == s[..j] + s[j..];
    assert s[..j][i] == s[i] && s[j..][0] == s[i];
    assert s[i] in multiset(s[..j]) && s[i] in multiset(s[j..]);
  }

  /** A part of numbered candidates never names the same position twice. */
  lemma NumberedNoTwins(candidates: seq<Candidate>, part: seq<Candidate>)
    requires Numbered(candidates) && multiset(part) <= multiset(candidates)
    ensures NoTies(ByIndex, part)
  {
    forall i, j | 0 <= i < j < |part| ensures part[i].index != part[j].index {
      assert part[i] in multiset(part) && part[j] in multiset(part);
      if part[i] == part[j] {
        TwiceCounts(part, i, j);
        AtMostOnce(candidates, part[i]);
      }
    }
  }

  /** The joined length is the tracked one, within the budget. */
  lemma ContextLength(messages: seq<Message>, specialist: Option<string>, rank: Relevance, budget: int)
    requires budget > 0
    ensures var packed := Packed(Sort(ByRelevance, Candidates(messages, specialist, rank, |messages|)), budget);
            |Join(Chosen(messages, specialist, rank, budget))| == Used(packed) <= budget
  {
    var ranked := Sort(ByRelevance, Candidates(messages, specialist, rank, |messages|));
    var packed := Packed(ranked, budget);
    PackedFits(ranked, budget);
    SortKeepsSum(ByIndex, Length(), packed);
    SameElements(Sort(ByIndex, packed), packed);
    JoinedLength(Sort(ByIndex, packed));
  }

  /** No permitted message that is missing would still fit, even with its line feed. */
  lemma ContextIsMaximal(messages: seq<Message>, specialist: Option<string>, rank: Relevance, budget: int, i: nat)
    requires budget > 0 && i < |messages| && Permitted(messages[i], specialist)
    requires forall x :: x in Chosen(messages, specialist, rank, budget) ==> x.index != i
    ensures var chosen := Chosen(messages, specialist, rank, budget);
            |Join(chosen)| + (if chosen == [] then 0 else 1) + |Rendered(messages[i])| > budget
  {
    var candidates := Candidates(messages, specialist, rank, |messages|);
    var ranked := Sort(ByRelevance, candidates);
    var packed := Packed(ranked, budget);
    ContextLength(messages, specialist, rank, budget);
    SameElements(Sort(ByIndex, packed), packed);
    SameElements(ranked, candidates);
    assert CandidateAt(messages, rank, i) in candidates;
    PackedIsMaximal(ranked, budget, CandidateAt(messages, rank, i));
  }

  // ----- the most relevant first -----

  predicate Outranks(rank: Relevance, messages: seq<Message>, j: nat, i: nat)
    requires i < |messages| && j < |messages|
  {
    var rj, ri := rank(j, |messages|, messages[j].content), rank(i, |messages|, messages[i].content);
    rj > ri || (rj == ri && j > i)
  }

  /** The room a candidate takes, with its line feed, if it ranks above the relevance and position given. */
  function RoomAbove(relevance: real, index: nat): Candidate -> int {
    (x: Candidate) =>
      if x.relevance > relevance || (x.relevance == relevance && x.index > index) then |x.text| + 1 else 0
  }

  lemma {:induction false} AllRoom(chosen: seq<Candidate>, y: Candidate)
    requires forall x :: x in chosen ==> ByRelevance(x, y) && !ByRelevance(y, x)
    ensures Sum(RoomAbove(y.relevance, y.index), chosen) == Sum(Length(), chosen) + |chosen|
  {
    if chosen != [] {
      var rest, last := chosen[..|chosen| - 1], chosen[|chosen| - 1];
      assert chosen == rest + [last];
      assert last in chosen && forall x :: x in rest ==> x in chosen;
      assert RoomAbove(y.relevance, y.index)(last) == |last.text| + 1 == Length()(last) + 1;
      AllRoom(rest, y);
      Snoc(Length(), rest, last);
      Snoc(RoomAbove(y.relevance, y.index), rest, last);
    }
  }

  /** What is left out has no room beside the chosen ones that rank above it. */
  lemma {:induction false} PackedOutranks(ranked: seq<Candidate>, budget: int, y: Candidate)
    requires Strictly(ByRelevance, ranked) && y in ranked && y !in Packed(ranked, budget) && budget >= 0
    ensures Sum(RoomAbove(y.relevance, y.index), Packed(ranked, budget)) + |y.text| > budget
  {
    var rest, last := ranked[..|ranked| - 1], ranked[|ranked| - 1];
    var before, room := Packed(rest, budget), RoomAbove(y.relevance, y.index);
    assert ranked == rest + [last];
    assert room(last) >= 0;
    if y in rest {
      Snoc(room, before, last);
      assert y !in before;
      PackedOutranks(rest, budget, y);
    } else {
      LastIsOutranked(rest, budget, y);
    }
  }

  lemma LastIsOutranked(rest: seq<Candidate>, budget: int, y: Candidate)
    requires Strictly(ByRelevance, rest + [y]) && budget >= 0
    requires Used(Packed(rest, budget)) + Cost(y, Packed(rest, budget)) > budget
    ensures Sum(RoomAbove(y.relevance, y.index), Packed(rest, budget)) + |y.text| > budget
  {
    AllRankAbove(rest, budget, y);
    AllRoom(Packed(rest, budget), y);
  }

  lemma AllRankAbove(rest: seq<Candidate>, budget: int, y: Candidate)
    requires Strictly(ByRelevance, rest + [y]) && budget >= 0
    ensures forall x :: x in Packed(rest, budget) ==> ByRelevance(x, y) && !ByRelevance(y, x)
  {
    PackedFits(rest, budget);
    forall x | x in Packed(rest, budget) ensures ByRelevance(x, y) && !ByRelevance(y, x) {
      assert x in multiset(Packed(rest, budget)) && x in multiset(rest);
      var i :| 0 <= i < |rest| && rest[i] == x;
      assert (rest + [y])[i] == x && (rest + [y])[|rest|] == y;
    }
  }

  lemma UnpackedIsOutranked(candidates: seq<Candidate>, budget: int, y: Candidate)
    requires Numbered(candidates) && y in candidates && budget >= 0
    requires y !in Packed(Sort(ByRelevance, candidates), budget)
    ensures
      var packed := Packed(Sort(ByRelevance, candidates), budget);
      Sum(RoomAbove(y.relevance, y.index), Sort(ByIndex, packed)) + |y.text| > budget
  {
    var ranked := Sort(ByRelevance, candidates);
    SortIsStrict(ByRelevance, candidates);
    SameElements(ranked, candidates);
    PackedOutranks(ranked, budget, y);
    SortKeepsSum(ByIndex, RoomAbove(y.relevance, y.index), Packed(ranked, budget));
  }

  /** A permitted message is missing only where the chosen ones that outrank it leave no room for it. */
  lemma MissingIsOutranked(messages: seq<Message>, specialist: Option<string>, rank: Relevance, budget: int, i: nat)
    requires budget > 0 && i < |messages|
    requires specialist.Some? ==> !messages[i].privateToLi && specialist.value in messages[i].allowed
    requires forall x :: x in Chosen(messages, specialist, rank, budget) ==> x.index != i
    ensures
      Sum(RoomAbove(rank(i, |messages|, messages[i].content), i), Chosen(messages, specialist, rank, budget))
      + |Rendered(messages[i])| > budget
  {
    var candidates, y := Candidates(messages, specialist, rank, |messages|), CandidateAt(messages, rank, i);
    var packed := Packed(Sort(ByRelevance, candidates), budget);
    SameElements(Sort(ByIndex, packed), packed);
    assert y in candidates && (y in packed <==> y in Chosen(messages, specialist, rank, budget));
    UnpackedIsOutranked(candidates, budget, y);
  }

  /** Of the permitted messages that fit alone, the one that outranks all others is kept. */
  lemma MostRelevantIsKept(messages: seq<Message>, specialist: Option<string>, rank: Relevance, budget: int, i: nat)
    requires budget > 0 && i < |messages| && |Rendered(messages[i])| <= budget
    requires specialist.Some? ==> !messages[i].privateToLi && specialist.value in messages[i].allowed
    requires forall j :: 0 <= j < |messages| && Outranks(rank, messages, j, i) ==>
               || |Rendered(messages[j])| > budget
               || (specialist.Some? && (messages[j].privateToLi || specialist.value !in messages[j].allowed))
    ensures exists x :: x in Chosen(messages, specialist, rank, budget) && x.index == i
  {
    var chosen := Chosen(messages, specialist, rank, budget);
    if forall x :: x in chosen ==> x.index != i {
      MissingIsOutranked(messages, specialist, rank, budget, i);
      ChosenIsRanked(messages, specialist, rank, budget);
      NobodyAbove(messages, specialist, rank, budget, i, chosen);
    }
  }

  lemma NobodyAbove(messages: seq<Message>, specialist: Option<string>, rank: Relevance, budget: int, i: nat,
                    chosen: seq<Candidate>)
    requires i < |messages|
    requires forall j :: 0 <= j < |messages| && Outranks(rank, messages, j, i) ==>
               || |Rendered(messages[j])| > budget
               || (specialist.Some? && (messages[j].privateToLi || specialist.value !in messages[j].allowed))
    requires forall x :: x in chosen ==>
               && x.index < |messages| && Permitted(messages[x.index], specialist)
               && x == CandidateAt(messages, rank, x.index) && |x.text| <= budget
    ensures Sum(RoomAbove(rank(i, |messages|, messages[i].content), i), chosen) == 0
  {
    var room := RoomAbove(rank(i, |messages|, messages[i].content), i);
    forall x | x in chosen ensures room(x) == 0 {
      assert !Outranks(rank, messages, x.index, i);
    }
    NoRoom(room, chosen);
  }

  lemma {:induction false} NoRoom(weight: Candidate -> int, chosen: seq<Candidate>)
    requires forall x :: x in chosen ==> weight(x) == 0
    ensures Sum(weight, chosen) == 0
  {
    if chosen != [] {
      var rest, last := chosen[..|chosen| - 1], chosen[|chosen| - 1];
      assert chosen == rest + [last];
      NoRoom(weight, rest);
      Snoc(weight, rest, last);
    }
  }

  /** A chosen message is a candidate, and fits alone. */
  lemma ChosenIsRanked(messages: seq<Message>, specialist: Option<string>, rank: Relevance, budget: int)
    requires budget > 0
    ensures forall x :: x in Chosen(messages, specialist, rank, budget) ==>
              && x.index < |messages| && Permitted(messages[x.index], specialist)
              && x == CandidateAt(messages, rank, x.index) && |x.text| <= budget
  {
    var candidates := Candidates(messages, specialist, rank, |messages|);
    var ranked := Sort(ByRelevance, candidates);
    var packed := Packed(ranked, budget);
    PackedFits(ranked, budget);
    SameElements(Sort(ByIndex, packed), packed);
    forall x | x in packed ensures x in candidates && |x.text| <= budget {
      assert x in multiset(packed) && x in multiset(ranked);
      FitsAlone(packed, x);
    }
  }

  lemma {:induction false} FitsAlone(chosen: seq<Candidate>, x: Candidate)
    requires x in chosen
    ensures |x.text| <= Used(chosen)
  {
    var rest, last := chosen[..|chosen| - 1], chosen[|chosen| - 1];
    assert chosen == rest + [last];
    UsedOneMore(rest, last);
    UsedIsNatural(rest);
    if x in rest { FitsAlone(rest, x); }
  }

  // ----- what is hidden -----

  predicate HiddenFrom(name: string, message: Message) { message.privateToLi || name !in message.allowed }

  /** The two conversations look the same to the specialist: messages hidden from it may differ at will. */
  ghost predicate SameInSight(messages: seq<Message>, others: seq<Message>, name: string) {
    && |messages| == |others|
    && forall i :: 0 <= i < |messages| ==>
         messages[i] == others[i] || (HiddenFrom(name, messages[i]) && HiddenFrom(name, others[i]))
  }

  lemma {:induction false} HiddenMessagesDoNotRank(messages: seq<Message>, others: seq<Message>, name: string,
                                                   rank: Relevance, n: nat)
    requires SameInSight(messages, others, name) && n <= |messages|
    ensures Candidates(messages, Some(name), rank, n) == Candidates(others, Some(name), rank, n)
  {
    if n > 0 {
      HiddenMessagesDoNotRank(messages, others, name, rank, n - 1);
      assert Permitted(messages[n - 1], Some(name)) <==> !HiddenFrom(name, messages[n - 1]);
      assert Permitted(others[n - 1], Some(name)) <==> !HiddenFrom(name, others[n - 1]);
      if !HiddenFrom(name, messages[n - 1]) {
        assert messages[n - 1] == others[n - 1];
        assert CandidateAt(messages, rank, n - 1) == CandidateAt(others, rank, n - 1);
      }
    }
  }

  /** What is private to Li, or not disclosed to a specialist by name, has no influence on what it is shown. */
  lemma HiddenMessagesDoNotShow(messages: seq<Message>, others: seq<Message>, name: string, rank: Relevance,
                                budget: int)
    requires SameInSight(messages, others, name)
    ensures Chosen(messages, Some(name), rank, budget) == Chosen(others, Some(name), rank, budget)
  {
    HiddenMessagesDoNotRank(messages, others, name, rank, |messages|);
  }

  /** A rendered message is never empty, so the text is empty only when nothing was chosen. */
  lemma NothingToShow(messages: seq<Message>, specialist: Option<string>, rank: Relevance, budget: int)
    requires budget > 0
    ensures var chosen := Chosen(messages, specialist, rank, budget);
            Join(chosen) == "" <==> chosen == []
  {
    var chosen := Chosen(messages, specialist, rank, budget);
    ChosenIsExcerpt(messages, specialist, rank, budget);
    if |chosen| == 1 {
      assert chosen[0] in chosen;
      assert |Rendered(messages[chosen[0].index])| > 0;
    }
  }

  /** The loop over the messages. */
  method CollectCandidates(messages: seq<Message>, specialist: Option<string>, rank: Relevance)
    returns (candidates: seq<Candidate>)
    ensures candidates == Candidates(messages, specialist, rank, |messages|)
  {
    candidates := [];
    for index := 0 to |messages|
      invariant candidates == Candidates(messages, specialist, rank, index)
    {
      if !Permitted(messages[index], specialist) { continue; }
      candidates := candidates + [CandidateAt(messages, rank, index)];
    }
  }

  /** The loop over the ranked candidates, with its running length. */
  method PackCandidates(ranked: seq<Candidate>, budget: int) returns (chosen: seq<Candidate>, used: int)
    ensures chosen == Packed(ranked, budget) && used == Used(chosen)
  {
    chosen, used := [], 0;
    for i := 0 to |ranked|
      invariant chosen == Packed(ranked[..i], budget) && used == Used(chosen)
    {
      assert ranked[..i + 1][..i] == ranked[..i];
      var cost := |ranked[i].text| + if chosen == [] then 0 else 1;
      UsedOneMore(chosen, ranked[i]);
      UsedIsNatural(chosen);
      if cost > budget { continue; }
      if used + cost > budget { continue; }
      chosen := chosen + [ranked[i]];
      used := used + cost;
    }
    assert ranked[..|ranked|] == ranked;
  }

  lemma UsedIsNatural(chosen: seq<Candidate>)
    ensures Used(chosen) >= 0
  {
    SumGrows(Length(), chosen);
  }

  /** The context, None when there is nothing to show, or an error for a budget that is not positive. */
  method BoundedContext(messages: seq<Message>, budget: int, specialist: Option<string>, rank: Relevance)
    returns (r: Result<Option<string>, ()>)
    ensures r.Err? <==> budget <= 0
    ensures r.Ok? ==>
              var chosen := Chosen(messages, specialist, rank, budget);
              r.value == if chosen == [] then None else Some(Join(chosen))
  {
    if budget <= 0 { return Err(()); }
    var candidates := CollectCandidates(messages, specialist, rank);
    var chosen, used := PackCandidates(Sort(ByRelevance, candidates), budget);
    var text := Join(Sort(ByIndex, chosen));
    NothingToShow(messages, specialist, rank, budget);
    r := Ok(if text == "" then None else Some(text));
  }
}
