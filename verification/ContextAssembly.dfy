/**
 The greedy packing of context items: `assemble_context` (backend/app/governed_systems.py).
 */
module ContextAssembly {
  import opened Wrappers
  import opened StableSort
  import opened Sums

  datatype ContextClass =
    | Core | Policy | Skill | Specialist | Freshness | Provider | Place | Memory | Historical | Task | Conversation

  datatype ContextItem = ContextItem(
    contextClass: ContextClass, content: string, tokens: nat, mandatory: bool, privateToLi: bool, relevance: real)

  datatype Caller = Li | ForSpecialist | Temporary | Heavy

  datatype Failure = BudgetNotPositive | MandatoryExceedsBudget

  datatype Assembly = Assembly(selected: seq<ContextItem>, omittedClasses: set<ContextClass>, tokens: int)

  function ClassBudget(c: ContextClass): nat {
    match c
    case Core => 12_000
    case Policy => 4_000
    case Skill => 4_000
    case Specialist => 2_500
    case Freshness => 1_000
    case Provider => 1_000
    case Place => 300
    case Memory => 3_000
    case Historical => 2_500
    case Task => 1_500
    case Conversation => 8_000
  }

  predicate Permitted(caller: Caller, item: ContextItem) { caller == Li || !item.privateToLi }

  /** Mandatory items first, then by falling relevance. */
  predicate ByPriority(a: ContextItem, b: ContextItem) {
    (a.mandatory && !b.mandatory) || (a.mandatory == b.mandatory && a.relevance >= b.relevance)
  }

  // ----- weights -----

  function Tokens(): ContextItem -> int { (item: ContextItem) => item.tokens }

  function ClassTokens(c: ContextClass): ContextItem -> int {
    (item: ContextItem) => if item.contextClass == c then item.tokens else 0
  }

  /** What must go in. */
  function Required(caller: Caller): ContextItem -> int {
    (item: ContextItem) => if item.mandatory && Permitted(caller, item) then item.tokens else 0
  }

  // ----- the packing -----

  predicate Fits(item: ContextItem, kept: seq<ContextItem>, total: int) {
    && Sum(ClassTokens(item.contextClass), kept) + item.tokens <= ClassBudget(item.contextClass)
    && Sum(Tokens(), kept) + item.tokens <= total
  }

  /** The items kept of a ranked list, or nothing when a mandatory one does not fit. */
  function Packed(ranked: seq<ContextItem>, total: int, caller: Caller): Option<seq<ContextItem>> {
    if ranked == [] then Some([])
    else
      var before := Packed(ranked[..|ranked| - 1], total, caller);
      if before.None? then None else Taken(ranked[|ranked| - 1], before.value, total, caller)
  }

  function Taken(item: ContextItem, kept: seq<ContextItem>, total: int, caller: Caller): Option<seq<ContextItem>> {
    if !Permitted(caller, item) then Some(kept)
    else if item.mandatory then
      if Sum(Tokens(), kept) + item.tokens > total then None else Some(kept + [item])
    else Some(if Fits(item, kept, total) then kept + [item] else kept)
  }

  ghost predicate MandatoryFirst(ranked: seq<ContextItem>) {
    forall i, j :: 0 <= i < j < |ranked| && ranked[j].mandatory ==> ranked[i].mandatory
  }

  ghost predicate AllMandatory(s: seq<ContextItem>) { forall i :: 0 <= i < |s| ==> s[i].mandatory }

  /** How often an item of the list was left out. */
  ghost predicate LeftOut(item: ContextItem, s: seq<ContextItem>, kept: seq<ContextItem>) {
    multiset(kept)[item] < multiset(s)[item]
  }

  lemma MultisetSnoc(s: seq<ContextItem>)
    requires s != []
    ensures multiset(s) == multiset(s[..|s| - 1]) + multiset{s[|s| - 1]}
  {
    assert s == s[..|s| - 1] + [s[|s| - 1]];
  }

  /** While only mandatory items were seen, what is kept weighs what is required; it always fits the total. */
  lemma {:induction false} PackedWeight(ranked: seq<ContextItem>, total: int, caller: Caller)
    requires total >= 0
    ensures var p := Packed(ranked, total, caller);
            p.Some? ==>
              && Sum(Tokens(), p.value) <= total
              && (AllMandatory(ranked) ==> Sum(Tokens(), p.value) == Sum(Required(caller), ranked))
  {
    if ranked != [] {
      var rest, item := ranked[..|ranked| - 1], ranked[|ranked| - 1];
      PackedWeight(rest, total, caller);
      var before := Packed(rest, total, caller);
      if before.Some? {
        Snoc(Tokens(), before.value, item);
      }
    }
  }

  /** Packing fails exactly when the required items together exceed the total. */
  lemma {:induction false} PackingFails(ranked: seq<ContextItem>, total: int, caller: Caller)
    requires MandatoryFirst(ranked) && total >= 0
    ensures Packed(ranked, total, caller).None? <==> Sum(Required(caller), ranked) > total
  {
    if ranked != [] {
      var rest, item := ranked[..|ranked| - 1], ranked[|ranked| - 1];
      PackingFails(rest, total, caller);
      PackedWeight(rest, total, caller);
      if item.mandatory {
        assert AllMandatory(rest);
      }
    }
  }

  /** Nothing is invented or repeated, nothing private slips in, everything required stays. */
  lemma {:induction false} PackedItems(ranked: seq<ContextItem>, total: int, caller: Caller, item: ContextItem)
    requires Packed(ranked, total, caller).Some?
    ensures var kept := multiset(Packed(ranked, total, caller).value);
            && kept[item] <= multiset(ranked)[item]
            && (!Permitted(caller, item) ==> kept[item] == 0)
            && (Permitted(caller, item) && item.mandatory ==> kept[item] == multiset(ranked)[item])
  {
    if ranked != [] {
      PackedItems(ranked[..|ranked| - 1], total, caller, item);
      MultisetSnoc(ranked);
    }
  }

  ghost predicate HasOptional(kept: seq<ContextItem>, c: ContextClass) {
    exists i :: 0 <= i < |kept| && kept[i].contextClass == c && !kept[i].mandatory
  }

  lemma {:induction false} MandatoryStaysMandatory(ranked: seq<ContextItem>, total: int, caller: Caller)
    requires AllMandatory(ranked) && Packed(ranked, total, caller).Some?
    ensures AllMandatory(Packed(ranked, total, caller).value)
  {
    if ranked != [] {
      MandatoryStaysMandatory(ranked[..|ranked| - 1], total, caller);
    }
  }

  lemma OneOptionalMore(kept: seq<ContextItem>, item: ContextItem, total: int, c: ContextClass)
    requires HasOptional(kept, c) ==> Sum(ClassTokens(c), kept) <= ClassBudget(c)
    requires !item.mandatory && Fits(item, kept, total)
    ensures HasOptional(kept + [item], c) ==> Sum(ClassTokens(c), kept + [item]) <= ClassBudget(c)
  {
    Snoc(ClassTokens(c), kept, item);
    if item.contextClass != c && HasOptional(kept + [item], c) {
      SameOptional(kept, item, c);
    }
  }

  lemma SameOptional(kept: seq<ContextItem>, item: ContextItem, c: ContextClass)
    requires item.contextClass != c && HasOptional(kept + [item], c)
    ensures HasOptional(kept, c)
  {
    var more := kept + [item];
    var i :| 0 <= i < |more| && more[i].contextClass == c && !more[i].mandatory;
    assert kept[i] == more[i];
  }

  /** An optional item is never what takes a class over its budget. */
  lemma {:induction false} PackedClasses(ranked: seq<ContextItem>, total: int, caller: Caller, c: ContextClass)
    requires MandatoryFirst(ranked) && Packed(ranked, total, caller).Some?
    requires HasOptional(Packed(ranked, total, caller).value, c)
    ensures Sum(ClassTokens(c), Packed(ranked, total, caller).value) <= ClassBudget(c)
  {
    if ranked != [] {
      var rest, last := ranked[..|ranked| - 1], ranked[|ranked| - 1];
      var before := Packed(rest, total, caller).value;
      if last.mandatory {
        assert AllMandatory(ranked);
        MandatoryStaysMandatory(ranked, total, caller);
      } else {
        if HasOptional(before, c) {
          PackedClasses(rest, total, caller, c);
        }
        if Permitted(caller, last) && Fits(last, before, total) {
          OneOptionalMore(before, last, total, c);
        }
      }
    }
  }

  /** No permitted item that was left out would still fit. */
  lemma {:induction false} PackedIsMaximal(ranked: seq<ContextItem>, total: int, caller: Caller, item: ContextItem)
    requires Packed(ranked, total, caller).Some? && Permitted(caller, item)
    requires LeftOut(item, ranked, Packed(ranked, total, caller).value)
    ensures !Fits(item, Packed(ranked, total, caller).value, total)
  {
    if ranked != [] {
      var rest, last := ranked[..|ranked| - 1], ranked[|ranked| - 1];
      var before := Packed(rest, total, caller).value;
      MultisetSnoc(ranked);
      Snoc(Tokens(), before, last);
      Snoc(ClassTokens(item.contextClass), before, last);
      if LeftOut(item, rest, before) {
        PackedIsMaximal(rest, total, caller, item);
      }
    }
  }

  /** The better items alone leave no room for it. */
  ghost predicate Outdone(item: ContextItem, better: seq<ContextItem>, total: int) {
    && !Fits(item, better, total)
    && forall i :: 0 <= i < |better| ==> better[i].mandatory || better[i].relevance >= item.relevance
  }

  /** Some of the items kept first, none of them optional and less relevant, leave no room for it. */
  ghost predicate Preferred(item: ContextItem, kept: seq<ContextItem>, total: int) {
    exists k: nat :: k <= |kept| && Outdone(item, kept[..k], total)
  }

  lemma PreferredStays(item: ContextItem, kept: seq<ContextItem>, more: seq<ContextItem>, total: int)
    requires Preferred(item, kept, total) && kept <= more
    ensures Preferred(item, more, total)
  {
    var k: nat :| k <= |kept| && Outdone(item, kept[..k], total);
    assert more[..k] == kept[..k];
  }

  /** An optional item is left out only for mandatory or at least as relevant ones. */
  lemma {:induction false} PackedPrefers(ranked: seq<ContextItem>, total: int, caller: Caller, item: ContextItem)
    requires SortedBy(ByPriority, ranked) && Packed(ranked, total, caller).Some?
    requires Permitted(caller, item) && !item.mandatory
    requires LeftOut(item, ranked, Packed(ranked, total, caller).value)
    ensures Preferred(item, Packed(ranked, total, caller).value, total)
  {
    if ranked != [] {
      var rest, last := ranked[..|ranked| - 1], ranked[|ranked| - 1];
      var before := Packed(rest, total, caller).value;
      var kept := Packed(ranked, total, caller).value;
      MultisetSnoc(ranked);
      if LeftOut(item, rest, before) {
        PackedPrefers(rest, total, caller, item);
        PreferredStays(item, before, kept, total);
      } else {
        assert item == last && kept == before;
        assert ranked == rest + [last];
        KeptRanksAbove(rest, total, caller, kept, last);
        assert kept[..|kept|] == kept;
        assert Outdone(item, kept[..|kept|], total);
      }
    }
  }

  lemma KeptRanksAbove(ranked: seq<ContextItem>, total: int, caller: Caller, kept: seq<ContextItem>, last: ContextItem)
    requires SortedBy(ByPriority, ranked + [last]) && Packed(ranked, total, caller) == Some(kept)
    ensures forall k :: 0 <= k < |kept| ==> ByPriority(kept[k], last)
  {
    forall k | 0 <= k < |kept| ensures ByPriority(kept[k], last) {
      var x := kept[k];
      PackedItems(ranked, total, caller, x);
      assert x in multiset(ranked);
      var i :| 0 <= i < |ranked| && ranked[i] == x;
      assert (ranked + [last])[i] == x && (ranked + [last])[|ranked|] == last;
    }
  }

  /** What is kept comes in the order of priority. */
  ghost predicate InOrder(kept: seq<ContextItem>) {
    forall i, j :: 0 <= i < j < |kept| ==>
      && (kept[j].mandatory ==> kept[i].mandatory)
      && (kept[i].mandatory == kept[j].mandatory ==> kept[i].relevance >= kept[j].relevance)
  }

  lemma InOrderSnoc(kept: seq<ContextItem>, last: ContextItem)
    requires InOrder(kept) && forall k :: 0 <= k < |kept| ==> ByPriority(kept[k], last)
    ensures InOrder(kept + [last])
  {
  }

  lemma TakenInOrder(
    kept: seq<ContextItem>, last: ContextItem, total: int, caller: Caller, taken: seq<ContextItem>)
    requires InOrder(kept) && forall k :: 0 <= k < |kept| ==> ByPriority(kept[k], last)
    requires Taken(last, kept, total, caller) == Some(taken)
    ensures InOrder(taken)
  {
    InOrderSnoc(kept, last);
  }

  lemma {:induction false} PackedInOrder(ranked: seq<ContextItem>, total: int, caller: Caller)
    requires SortedBy(ByPriority, ranked) && Packed(ranked, total, caller).Some?
    ensures InOrder(Packed(ranked, total, caller).value)
  {
    if ranked != [] {
      var rest, last := ranked[..|ranked| - 1], ranked[|ranked| - 1];
      var before := Packed(rest, total, caller).value;
      assert ranked == rest + [last];
      PackedInOrder(rest, total, caller);
      KeptRanksAbove(rest, total, caller, before, last);
      TakenInOrder(before, last, total, caller, Packed(ranked, total, caller).value);
    }
  }

  // ----- assembly -----

  function ClassesOf(s: seq<ContextItem>): set<ContextClass> { set item | item in s :: item.contextClass }

  /** Nothing is invented or repeated, nothing private slips in, everything mandatory stays. */
  ghost predicate KeepsItems(items: seq<ContextItem>, caller: Caller, kept: seq<ContextItem>) {
    forall item ::
      && multiset(kept)[item] <= multiset(items)[item]
      && (caller != Li && item.privateToLi ==> item !in kept)
      && ((caller == Li || !item.privateToLi) && item.mandatory ==> multiset(kept)[item] == multiset(items)[item])
  }

  /** The total is kept, and an optional item never takes its class over its budget. */
  ghost predicate KeepsBudgets(total: int, kept: seq<ContextItem>) {
    && Sum(Tokens(), kept) <= total
    && forall item :: item in kept && !item.mandatory ==>
         Sum(ClassTokens(item.contextClass), kept) <= ClassBudget(item.contextClass)
  }

  /** What is left out does not fit, and had no room beside what is mandatory or at least as relevant. */
  ghost predicate LeavesOutRightly(items: seq<ContextItem>, total: int, caller: Caller, kept: seq<ContextItem>) {
    forall item :: Permitted(caller, item) && LeftOut(item, items, kept) ==>
      !Fits(item, kept, total) && Preferred(item, kept, total)
  }

  /** What a caller may rely on, said without the order in which the items were tried. */
  ghost predicate GoodSelection(items: seq<ContextItem>, total: int, caller: Caller, kept: seq<ContextItem>) {
    && KeepsItems(items, caller, kept) && KeepsBudgets(total, kept)
    && LeavesOutRightly(items, total, caller, kept) && InOrder(kept)
  }

  lemma RankedMandatoryFirst(items: seq<ContextItem>)
    ensures MandatoryFirst(Sort(ByPriority, items))
  {
    SortSorts(ByPriority, items);
  }

  lemma PackedKeepsItems(ranked: seq<ContextItem>, total: int, caller: Caller)
    requires Packed(ranked, total, caller).Some?
    ensures KeepsItems(ranked, caller, Packed(ranked, total, caller).value)
  {
    var kept := Packed(ranked, total, caller).value;
    forall item
      ensures && multiset(kept)[item] <= multiset(ranked)[item]
              && (caller != Li && item.privateToLi ==> item !in kept)
              && ((caller == Li || !item.privateToLi) && item.mandatory ==>
                    multiset(kept)[item] == multiset(ranked)[item])
    {
      PackedItems(ranked, total, caller, item);
    }
  }

  lemma PackedKeepsBudgets(ranked: seq<ContextItem>, total: int, caller: Caller)
    requires total > 0 && MandatoryFirst(ranked) && Packed(ranked, total, caller).Some?
    ensures KeepsBudgets(total, Packed(ranked, total, caller).value)
  {
    var kept := Packed(ranked, total, caller).value;
    PackedWeight(ranked, total, caller);
    forall item | item in kept && !item.mandatory
      ensures Sum(ClassTokens(item.contextClass), kept) <= ClassBudget(item.contextClass)
    {
      PackedClasses(ranked, total, caller, item.contextClass);
    }
  }

  lemma PackedLeavesOutRightly(ranked: seq<ContextItem>, total: int, caller: Caller)
    requires SortedBy(ByPriority, ranked) && Packed(ranked, total, caller).Some?
    ensures LeavesOutRightly(ranked, total, caller, Packed(ranked, total, caller).value)
  {
    var kept := Packed(ranked, total, caller).value;
    forall item | Permitted(caller, item) && LeftOut(item, ranked, kept)
      ensures !Fits(item, kept, total) && Preferred(item, kept, total)
    {
      PackedIsMaximal(ranked, total, caller, item);
      PackedItems(ranked, total, caller, item);
      PackedPrefers(ranked, total, caller, item);
    }
  }

  lemma PackedIsGood(items: seq<ContextItem>, total: int, caller: Caller)
    requires total > 0 && Packed(Sort(ByPriority, items), total, caller).Some?
    ensures GoodSelection(items, total, caller, Packed(Sort(ByPriority, items), total, caller).value)
  {
    var ranked := Sort(ByPriority, items);
    SortSorts(ByPriority, items);
    RankedMandatoryFirst(items);
    PackedKeepsItems(ranked, total, caller);
    PackedKeepsBudgets(ranked, total, caller);
    PackedLeavesOutRightly(ranked, total, caller);
    PackedInOrder(ranked, total, caller);
    var kept := Packed(ranked, total, caller).value;
    assert forall item :: LeftOut(item, items, kept) <==> LeftOut(item, ranked, kept);
  }

  method AssembleContext(items: seq<ContextItem>, total: int, caller: Caller) returns (r: Result<Assembly, Failure>)
    ensures r == Err(BudgetNotPositive) <==> total <= 0
    ensures r == Err(MandatoryExceedsBudget) <==> total > 0 && Sum(Required(caller), items) > total
    ensures r.Ok? ==>
              && Packed(Sort(ByPriority, items), total, caller) == Some(r.value.selected)
              && GoodSelection(items, total, caller, r.value.selected)
              && r.value.tokens == Sum(Tokens(), r.value.selected)
              && r.value.omittedClasses == ClassesOf(items) - ClassesOf(r.value.selected)
  {
    if total <= 0 { return Err(BudgetNotPositive); }
    var packed := PackCandidates(Sort(ByPriority, items), total, caller);
    RankedMandatoryFirst(items);
    SortKeepsSum(ByPriority, Required(caller), items);
    PackingFails(Sort(ByPriority, items), total, caller);
    if packed.None? { return Err(MandatoryExceedsBudget); }
    var selected := packed.value;
    PackedIsGood(items, total, caller);
    r := Ok(Assembly(selected, ClassesOf(items) - ClassesOf(selected), Sum(Tokens(), selected)));
  }

  /** The loop over the ranked candidates, with its running use of every class; None is the exception. */
  method PackCandidates(candidates: seq<ContextItem>, total: int, caller: Caller)
    returns (r: Option<seq<ContextItem>>)
    ensures r == Packed(candidates, total, caller)
  {
    var selected: seq<ContextItem> := [];
    var classUse: map<ContextClass, int> := map[];
    for i := 0 to |candidates|
      invariant Packed(candidates[..i], total, caller) == Some(selected)
      invariant Tracks(classUse, selected)
    {
      var item := candidates[i];
      PackedOneMore(candidates, i, total, caller);
      if !Permitted(caller, item) { continue; }
      var failed: bool;
      failed, selected, classUse := TakeOrLeave(item, selected, classUse, total, caller);
      if failed {
        StaysFailed(candidates, i + 1, total, caller);
        return None;
      }
    }
    assert candidates[..|candidates|] == candidates;
    r := Some(selected);
  }

  /** One round of the loop for a permitted item. */
  method TakeOrLeave(item: ContextItem, kept: seq<ContextItem>, use: map<ContextClass, int>, total: int,
                     ghost caller: Caller)
    returns (failed: bool, selected: seq<ContextItem>, classUse: map<ContextClass, int>)
    requires Permitted(caller, item) && Tracks(use, kept)
    ensures Taken(item, kept, total, caller) == if failed then None else Some(selected)
    ensures Tracks(classUse, selected)
  {
    TakenByUse(item, kept, use, total, caller);
    selected, classUse := kept, use;
    var used := Used(classUse, item.contextClass);
    var sum := Sum(Tokens(), selected);
    failed := item.mandatory && sum + item.tokens > total;
    if failed { return; }
    if item.mandatory || (used + item.tokens <= ClassBudget(item.contextClass) && sum + item.tokens <= total) {
      TracksOneMore(use, kept, item);
      selected, classUse := selected + [item], classUse[item.contextClass := used + item.tokens];
    }
  }

  lemma PackedOneMore(candidates: seq<ContextItem>, i: nat, total: int, caller: Caller)
    requires i < |candidates| && Packed(candidates[..i], total, caller).Some?
    ensures Packed(candidates[..i + 1], total, caller) ==
            Taken(candidates[i], Packed(candidates[..i], total, caller).value, total, caller)
  {
    assert candidates[..i + 1][..i] == candidates[..i];
  }

  ghost predicate Tracks(classUse: map<ContextClass, int>, selected: seq<ContextItem>) {
    forall c :: Sum(ClassTokens(c), selected) == Used(classUse, c)
  }

  /** The running use decides as the sums over what is kept would. */
  lemma TakenByUse(item: ContextItem, kept: seq<ContextItem>, use: map<ContextClass, int>, total: int, caller: Caller)
    requires Permitted(caller, item) && Tracks(use, kept)
    ensures
      var used, sum := Used(use, item.contextClass), Sum(Tokens(), kept);
      Taken(item, kept, total, caller) ==
      if item.mandatory && sum + item.tokens > total then None
      else if item.mandatory || (used + item.tokens <= ClassBudget(item.contextClass) && sum + item.tokens <= total)
      then Some(kept + [item])
      else Some(kept)
  {
    assert Sum(ClassTokens(item.contextClass), kept) == Used(use, item.contextClass);
  }

  lemma TracksOneMore(classUse: map<ContextClass, int>, selected: seq<ContextItem>, item: ContextItem)
    requires Tracks(classUse, selected)
    ensures Tracks(classUse[item.contextClass := Used(classUse, item.contextClass) + item.tokens], selected + [item])
  {
    forall c
      ensures Sum(ClassTokens(c), selected + [item]) ==
              Used(classUse[item.contextClass := Used(classUse, item.contextClass) + item.tokens], c)
    {
      Snoc(ClassTokens(c), selected, item);
    }
  }

  function Used(classUse: map<ContextClass, int>, c: ContextClass): int {
    if c in classUse then classUse[c] else 0
  }

  lemma {:induction false} StaysFailed(ranked: seq<ContextItem>, n: nat, total: int, caller: Caller)
    requires n <= |ranked| && Packed(ranked[..n], total, caller).None?
    ensures Packed(ranked, total, caller).None?
  {
    if n < |ranked| {
      assert ranked[..|ranked| - 1][..n] == ranked[..n];
      StaysFailed(ranked[..|ranked| - 1], n, total, caller);
    } else {
      assert ranked[..n] == ranked;
    }
  }
}
