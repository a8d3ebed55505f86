/** Counting the elements a predicate holds of: `sum(p(x) for x in s)`. */
module Counting {
  import opened Ordering

  function Count<T>(s: seq<T>, p: T -> bool): (n: nat)
    ensures n <= |s|
  {
    if s == [] then 0 else (if p(s[0]) then 1 else 0) + Count(s[1..], p)
  }

  lemma {:induction false} CountRemove<T>(s: seq<T>, i: nat, p: T -> bool)
    requires i < |s|
    ensures Count(s, p) == Count(s[..i] + s[i + 1..], p) + (if p(s[i]) then 1 else 0)
  {
    if i == 0 {
      assert s[..0] + s[1..] == s[1..];
    } else {
      CountRemove(s[1..], i - 1, p);
      assert s[1..][..i - 1] + s[1..][i..] == (s[..i] + s[i + 1..])[1..];
    }
  }

  lemma {:induction false} CountIgnoresOrder<T>(a: seq<T>, b: seq<T>, p: T -> bool)
    requires multiset(a) == multiset(b)
    ensures Count(a, p) == Count(b, p)
    decreases |a|
  {
    if a == [] {
      MultisetMembers(a, b);
    } else {
      var i := RemoveMatch(a, b);
      CountIgnoresOrder(a[1..], b[..i] + b[i + 1..], p);
      CountRemove(b, i, p);
    }
  }

  /** Along a sequence where `p` holds of a front and fails after it, position tells the count. */
  lemma {:induction false} CountIsPosition<T>(s: seq<T>, p: T -> bool, k: nat)
    requires k < |s|
    requires forall i, j :: 0 <= i < j < |s| && p(s[j]) ==> p(s[i])
    ensures p(s[k]) <==> Count(s, p) >= k + 1
  {
    if p(s[0]) {
      if k > 0 { CountIsPosition(s[1..], p, k - 1); }
    } else {
      NoneCount(s, p);
    }
  }

  lemma {:induction false} NoneCount<T>(s: seq<T>, p: T -> bool)
    requires forall i :: 0 <= i < |s| ==> !p(s[i])
    ensures Count(s, p) == 0
  {
    if s != [] { NoneCount(s[1..], p); }
  }

  lemma {:induction false} CountAppend<T>(a: seq<T>, b: seq<T>, p: T -> bool)
    ensures Count(a + b, p) == Count(a, p) + Count(b, p)
    decreases |a|
  {
    if a == [] {
      assert a + b == b;
    } else {
      assert (a + b)[1..] == a[1..] + b;
      CountAppend(a[1..], b, p);
    }
  }

  lemma {:induction false} AllCount<T>(s: seq<T>, p: T -> bool)
    ensures Count(s, p) == |s| <==> forall x :: x in s ==> p(x)
  {
    if s != [] {
      AllCount(s[1..], p);
      assert s == [s[0]] + s[1..];
    }
  }
}
