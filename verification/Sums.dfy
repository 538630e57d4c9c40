/** Weighted sums over sequences, which do not depend on the order. */
module Sums {
  import opened StableSort

  function Sum<T>(w: T -> int, s: seq<T>): int {
    if s == [] then 0 else Sum(w, s[..|s| - 1]) + w(s[|s| - 1])
  }

  lemma Snoc<T>(w: T -> int, s: seq<T>, x: T)
    ensures Sum(w, s + [x]) == Sum(w, s) + w(x)
  {
    assert (s + [x])[..|s|] == s;
  }

  lemma {:induction false} Cons<T>(w: T -> int, x: T, s: seq<T>)
    ensures Sum(w, [x] + s) == w(x) + Sum(w, s)
  {
    if s == [] {
      Snoc(w, [], x);
      assert [x] + s == [] + [x];
    } else {
      Cons(w, x, s[..|s| - 1]);
      assert ([x] + s)[..|s|] == [x] + s[..|s| - 1];
    }
  }

  lemma Front<T>(w: T -> int, s: seq<T>)
    requires s != []
    ensures Sum(w, s) == w(s[0]) + Sum(w, s[1..])
  {
    assert s == [s[0]] + s[1..];
    Cons(w, s[0], s[1..]);
  }

  lemma {:induction false} InsertAdds<T>(le: (T, T) -> bool, w: T -> int, x: T, s: seq<T>)
    ensures Sum(w, Insert(le, x, s)) == w(x) + Sum(w, s)
  {
    Cons(w, x, s);
    if s == [] {
      assert [x] + s == [x];
    } else if !le(x, s[0]) {
      InsertAdds(le, w, x, s[1..]);
      Cons(w, s[0], Insert(le, x, s[1..]));
      Front(w, s);
    }
  }

  lemma {:induction false} SortKeepsSum<T>(le: (T, T) -> bool, w: T -> int, s: seq<T>)
    ensures Sum(w, Sort(le, s)) == Sum(w, s)
  {
    if s != [] {
      SortKeepsSum(le, w, s[1..]);
      InsertAdds(le, w, s[0], Sort(le, s[1..]));
      Front(w, s);
    }
  }

  lemma {:induction false} SumGrows<T(!new)>(w: T -> int, s: seq<T>)
    requires forall x :: w(x) >= 0
    ensures Sum(w, s) >= 0
  {
    if s != [] {
      SumGrows(w, s[..|s| - 1]);
    }
  }

  lemma {:induction false} UpdateAdds<T>(w: T -> int, s: seq<T>, k: nat, x: T)
    requires k < |s|
    ensures Sum(w, s[k := x]) == Sum(w, s) - w(s[k]) + w(x)
  {
    var n := |s| - 1;
    if k < n {
      UpdateAdds(w, s[..n], k, x);
      assert s[k := x][..n] == s[..n][k := x];
    } else {
      assert s[k := x][..n] == s[..n];
    }
  }

  lemma {:induction false} SumMonotone<T(!new)>(w: T -> int, s: seq<T>, t: seq<T>)
    requires forall x :: w(x) >= 0
    requires |s| <= |t| && forall i :: 0 <= i < |s| ==> w(s[i]) <= w(t[i])
    ensures Sum(w, s) <= Sum(w, t)
  {
    if |s| < |t| {
      SumMonotone(w, s, t[..|t| - 1]);
    } else if s != [] {
      SumMonotone(w, s[..|s| - 1], t[..|t| - 1]);
    }
  }
}
