/** The library's stable sort, as the planning modules use it: `sorted(items, key=...)`. */
module StableSort {

  /** An order on keys: any two compare, and comparisons chain. */
  ghost predicate TotalPreorder<T(!new)>(le: (T, T) -> bool) {
    && (forall x, y :: le(x, y) || le(y, x))
    && (forall x, y, z :: le(x, y) && le(y, z) ==> le(x, z))
  }

  ghost predicate SortedBy<T>(le: (T, T) -> bool, s: seq<T>) {
    forall i, j :: 0 <= i < j < |s| ==> le(s[i], s[j])
  }

  /** Puts x before the first element that does not precede it, so before its equals. */
  function Insert<T>(le: (T, T) -> bool, x: T, s: seq<T>): (r: seq<T>)
    ensures multiset(r) == multiset(s) + multiset{x}
  {
    if s == [] then [x]
    else if le(x, s[0]) then [x] + s
    else
      var rest := Insert(le, x, s[1..]);
      assert s == [s[0]] + s[1..];
      [s[0]] + rest
  }

  function Sort<T>(le: (T, T) -> bool, s: seq<T>): (r: seq<T>)
    ensures multiset(r) == multiset(s)
  {
    if s == [] then []
    else
      assert s == [s[0]] + s[1..];
      Insert(le, s[0], Sort(le, s[1..]))
  }

  lemma SameElements<T>(s: seq<T>, t: seq<T>)
    requires multiset(s) == multiset(t)
    ensures |s| == |t| && forall x :: x in s <==> x in t
  {
    assert |multiset(s)| == |s| && |multiset(t)| == |t|;
    assert forall x :: x in s <==> x in multiset(s);
    assert forall x :: x in t <==> x in multiset(t);
  }

  lemma {:induction false} InsertSorts<T(!new)>(le: (T, T) -> bool, x: T, s: seq<T>)
    requires TotalPreorder(le) && SortedBy(le, s)
    ensures SortedBy(le, Insert(le, x, s))
  {
    if s != [] && !le(x, s[0]) {
      var rest := Insert(le, x, s[1..]);
      InsertSorts(le, x, s[1..]);
      SameElements(rest, s[1..] + [x]);
      forall j | 0 <= j < |rest| ensures le(s[0], rest[j]) {
        assert rest[j] in s[1..] + [x];
      }
    }
  }

  lemma {:induction false} SortSorts<T(!new)>(le: (T, T) -> bool, s: seq<T>)
    requires TotalPreorder(le)
    ensures SortedBy(le, Sort(le, s))
  {
    if s != [] {
      SortSorts(le, s[1..]);
      InsertSorts(le, s[0], Sort(le, s[1..]));
    }
  }

  /** Two orders that agree on the elements at hand sort them alike. */
  lemma {:induction false} InsertAgrees<T>(le: (T, T) -> bool, le': (T, T) -> bool, x: T, s: seq<T>)
    requires forall y :: y in s ==> (le(x, y) <==> le'(x, y))
    ensures Insert(le, x, s) == Insert(le', x, s)
  {
    if s != [] && !le(x, s[0]) {
      InsertAgrees(le, le', x, s[1..]);
    }
  }

  /** A strictly ordered sequence is determined by its elements. */
  ghost predicate Strictly<T>(le: (T, T) -> bool, s: seq<T>) {
    forall i, j :: 0 <= i < j < |s| ==> le(s[i], s[j]) && !le(s[j], s[i])
  }

  lemma EmptyTogether<T>(s: seq<T>, t: seq<T>)
    requires forall x :: x in s <==> x in t
    ensures s == [] <==> t == []
  {
    if s != [] { assert s[0] in t; }
    if t != [] { assert t[0] in s; }
  }

  lemma InRest<T>(le: (T, T) -> bool, s: seq<T>, x: T)
    requires Strictly(le, s) && s != []
    ensures x in s[1..] <==> x in s && x != s[0]
  {
    if x in s[1..] {
      var i :| 0 <= i < |s[1..]| && s[1..][i] == x;
      assert s[i + 1] == x;
    }
    if x in s && x != s[0] {
      var i :| 0 <= i < |s| && s[i] == x;
      assert s[1..][i - 1] == x;
    }
  }

  lemma {:induction false} StrictlySortedIsUnique<T>(le: (T, T) -> bool, s: seq<T>, t: seq<T>)
    requires Strictly(le, s) && Strictly(le, t)
    requires forall x :: x in s <==> x in t
    ensures s == t
    decreases |s|
  {
    EmptyTogether(s, t);
    if s != [] {
      assert s[0] in t;
      assert t[0] in s;
      assert s[0] == t[0];
      forall x ensures x in s[1..] <==> x in t[1..] {
        InRest(le, s, x);
        InRest(le, t, x);
      }
      StrictlySortedIsUnique(le, s[1..], t[1..]);
    }
  }

  ghost predicate NoTies<T>(le: (T, T) -> bool, s: seq<T>) {
    forall i, j :: 0 <= i < j < |s| ==> !(le(s[i], s[j]) && le(s[j], s[i]))
  }

  lemma StrictCons<T>(le: (T, T) -> bool, x: T, s: seq<T>)
    requires Strictly(le, s) && forall y :: y in s ==> le(x, y) && !le(y, x)
    ensures Strictly(le, [x] + s)
  {
    forall i, j | 0 <= i < j < |[x] + s| ensures le(([x] + s)[i], ([x] + s)[j]) && !le(([x] + s)[j], ([x] + s)[i]) {
      if i == 0 { assert s[j - 1] in s; }
    }
  }

  lemma StrictSnoc<T>(le: (T, T) -> bool, s: seq<T>, x: T)
    requires Strictly(le, s) && forall y :: y in s ==> le(y, x) && !le(x, y)
    ensures Strictly(le, s + [x])
  {
    forall i, j | 0 <= i < j < |s + [x]| ensures le((s + [x])[i], (s + [x])[j]) && !le((s + [x])[j], (s + [x])[i]) {
      if j == |s| { assert s[i] in s; }
    }
  }

  lemma {:induction false} InsertIsStrict<T(!new)>(le: (T, T) -> bool, x: T, s: seq<T>)
    requires TotalPreorder(le) && Strictly(le, s)
    requires forall y :: y in s ==> !(le(x, y) && le(y, x))
    ensures Strictly(le, Insert(le, x, s))
  {
    if s != [] {
      if le(x, s[0]) {
        forall y | y in s ensures le(x, y) && !le(y, x) {
          assert y == s[0] || le(s[0], y);
        }
        StrictCons(le, x, s);
      } else {
        var rest := Insert(le, x, s[1..]);
        InsertIsStrict(le, x, s[1..]);
        SameElements(rest, s[1..] + [x]);
        forall y | y in rest ensures le(s[0], y) && !le(y, s[0]) {
          assert y in s[1..] + [x];
        }
        StrictCons(le, s[0], rest);
      }
    }
  }

  /** Without ties nothing is left to stability. */
  lemma {:induction false} SortIsStrict<T(!new)>(le: (T, T) -> bool, s: seq<T>)
    requires TotalPreorder(le) && NoTies(le, s)
    ensures Strictly(le, Sort(le, s))
  {
    if s != [] {
      SortIsStrict(le, s[1..]);
      SameElements(Sort(le, s[1..]), s[1..]);
      forall y | y in Sort(le, s[1..]) ensures !(le(s[0], y) && le(y, s[0])) {
        assert y in s[1..];
      }
      InsertIsStrict(le, s[0], Sort(le, s[1..]));
    }
  }
}
