/** Grouping a list by key: `groups.setdefault(key(x), []).append(x)`, with the dict's own order. */
module Grouping {
  import opened Ordering
  import opened Wrappers

  /** No two keys share a value. */
  predicate Injective<K, V(==)>(m: map<K, V>) {
    forall p, q :: p in m && q in m && m[p] == m[q] ==> p == q
  }

  /** The items under one key, in list order. */
  function Having<V, K(==)>(items: seq<V>, key: V -> K, k: K): seq<V> {
    if items == [] then [] else
    var n := |items| - 1;
    Having(items[..n], key, k) + (if key(items[n]) == k then [items[n]] else [])
  }

  /** The keys, each once, in the order the dict meets them. */
  function Firsts<V, K(==)>(items: seq<V>, key: V -> K): seq<K> {
    if items == [] then [] else
    var n := |items| - 1;
    var front := Firsts(items[..n], key);
    if key(items[n]) in front then front else front + [key(items[n])]
  }

  method Group<V, K(==)>(items: seq<V>, key: V -> K) returns (order: seq<K>, groups: map<K, seq<V>>)
    ensures order == Firsts(items, key)
    ensures forall k :: k in groups <==> k in order
    ensures forall k :: k in groups ==> groups[k] == Having(items, key, k)
  {
    order, groups := [], map[];
    for i := 0 to |items|
      invariant order == Firsts(items[..i], key)
      invariant forall k :: k in groups <==> k in order
      invariant forall k :: k in groups ==> groups[k] == Having(items[..i], key, k)
    {
      var k := key(items[i]);
      assert items[..i + 1][..i] == items[..i];
      if k in groups {
        groups := groups[k := groups[k] + [items[i]]];
      } else {
        FirstsSpec(items[..i], key);
        NoneHaving(items[..i], key, k);
        order, groups := order + [k], groups[k := [items[i]]];
      }
    }
    assert items[..|items|] == items;
  }

  lemma {:induction false} FirstsSpec<V, K>(items: seq<V>, key: V -> K)
    ensures Distinct(Firsts(items, key))
    ensures forall x :: x in items ==> key(x) in Firsts(items, key)
    ensures forall k :: k in Firsts(items, key) ==> exists x :: x in items && key(x) == k
    ensures items != [] ==> Firsts(items, key) != []
  {
    if items != [] {
      var n := |items| - 1;
      FirstsSpec(items[..n], key);
      assert items == items[..n] + [items[n]];
      forall k | k in Firsts(items, key) ensures exists x :: x in items && key(x) == k {
        if k in Firsts(items[..n], key) {
          var x :| x in items[..n] && key(x) == k;
          assert x in items;
        } else {
          assert items[n] in items;
        }
      }
    }
  }

  lemma {:induction false} NoneHaving<V, K>(items: seq<V>, key: V -> K, k: K)
    requires forall x :: x in items ==> key(x) != k
    ensures Having(items, key, k) == []
  {
    if items != [] {
      var n := |items| - 1;
      assert items[n] in items && forall x :: x in items[..n] ==> x in items;
      NoneHaving(items[..n], key, k);
    }
  }

  lemma {:induction false} HavingCount<V, K>(items: seq<V>, key: V -> K, k: K, x: V)
    ensures multiset(Having(items, key, k))[x] == if key(x) == k then multiset(items)[x] else 0
  {
    if items != [] {
      var n := |items| - 1;
      HavingCount(items[..n], key, k, x);
      assert items == items[..n] + [items[n]];
    }
  }

  lemma HavingMembers<V(!new), K>(items: seq<V>, key: V -> K, k: K)
    ensures forall x :: x in Having(items, key, k) <==> x in items && key(x) == k
  {
    forall x ensures x in Having(items, key, k) <==> x in items && key(x) == k {
      HavingCount(items, key, k, x);
      assert x in Having(items, key, k) <==> multiset(Having(items, key, k))[x] > 0;
      assert x in items <==> multiset(items)[x] > 0;
    }
  }

  lemma {:induction false} HavingSize<V, K>(items: seq<V>, key: V -> K, k: K)
    ensures |Having(items, key, k)| <= |items|
  {
    if items != [] { HavingSize(items[..|items| - 1], key, k); }
  }

  lemma HavingIgnoresOrder<V(!new), K>(a: seq<V>, b: seq<V>, key: V -> K, k: K)
    requires multiset(a) == multiset(b)
    ensures multiset(Having(a, key, k)) == multiset(Having(b, key, k))
  {
    forall x ensures multiset(Having(a, key, k))[x] == multiset(Having(b, key, k))[x] {
      HavingCount(a, key, k, x);
      HavingCount(b, key, k, x);
    }
  }

  lemma SameMembersOnce<K(!new)>(a: seq<K>, b: seq<K>)
    requires Distinct(a) && Distinct(b) && forall x :: x in a <==> x in b
    ensures multiset(a) == multiset(b)
  {
    DistinctIsCountOne(a);
    DistinctIsCountOne(b);
    forall x ensures multiset(a)[x] == multiset(b)[x] {
      assert x in a <==> multiset(a)[x] > 0;
      assert x in b <==> multiset(b)[x] > 0;
    }
  }

  lemma FirstsIgnoresOrder<V, K(!new)>(a: seq<V>, b: seq<V>, key: V -> K)
    requires multiset(a) == multiset(b)
    ensures multiset(Firsts(a, key)) == multiset(Firsts(b, key))
  {
    MultisetMembers(a, b);
    FirstsSpec(a, key);
    FirstsSpec(b, key);
    forall k ensures k in Firsts(a, key) <==> k in Firsts(b, key) {
      if k in Firsts(a, key) { var x :| x in a && key(x) == k; assert x in b; }
      if k in Firsts(b, key) { var x :| x in b && key(x) == k; assert x in a; }
    }
    SameMembersOnce(Firsts(a, key), Firsts(b, key));
  }

  // ---- Sizes ---------------------------------------------------------------------------------------

  function Sum(s: seq<int>): int { if s == [] then 0 else s[0] + Sum(s[1..]) }

  lemma {:induction false} SumSnoc(s: seq<int>, x: int)
    ensures Sum(s + [x]) == Sum(s) + x
  {
    if s == [] {
      assert [] + [x] == [x] && [x][1..] == [];
    } else {
      assert (s + [x])[1..] == s[1..] + [x];
      SumSnoc(s[1..], x);
    }
  }

  lemma {:induction false} SumIgnoresOrder(a: seq<int>, b: seq<int>)
    requires multiset(a) == multiset(b)
    ensures Sum(a) == Sum(b)
    decreases |a|
  {
    if a == [] {
      MultisetMembers(a, b);
    } else {
      var i := RemoveMatch(a, b);
      SumIgnoresOrder(a[1..], b[..i] + b[i + 1..]);
      SumWithout(b, i);
    }
  }

  lemma {:induction false} SumWithout(s: seq<int>, i: nat)
    requires i < |s|
    ensures Sum(s) == Sum(s[..i] + s[i + 1..]) + s[i]
  {
    if i == 0 {
      assert s[..0] + s[1..] == s[1..];
    } else {
      SumWithout(s[1..], i - 1);
      assert s[1..][..i - 1] + s[1..][i..] == (s[..i] + s[i + 1..])[1..];
    }
  }

  function Sizes<V, K(==)>(items: seq<V>, key: V -> K, order: seq<K>): seq<int> {
    seq(|order|, i requires 0 <= i < |order| => |Having(items, key, order[i])|)
  }

  lemma {:induction false} SizesGrow<V, K>(front: seq<V>, x: V, key: V -> K, order: seq<K>)
    requires Distinct(order)
    ensures Sum(Sizes(front + [x], key, order)) == Sum(Sizes(front, key, order)) + (if key(x) in order then 1 else 0)
  {
    if order != [] {
      var rest := order[1..];
      assert order == [order[0]] + rest && forall k :: k in rest ==> exists i :: 0 < i < |order| && order[i] == k;
      assert order[0] !in rest;
      SizesGrow(front, x, key, rest);
      assert Sizes(front, key, order)[1..] == Sizes(front, key, rest);
      assert Sizes(front + [x], key, order)[1..] == Sizes(front + [x], key, rest);
      assert (front + [x])[..|front|] == front;
    }
  }

  /** The groups of a list partition it: their sizes add up to its length. */
  lemma {:induction false} GroupsPartition<V, K>(items: seq<V>, key: V -> K, order: seq<K>)
    requires Distinct(order) && forall x :: x in items ==> key(x) in order
    ensures Sum(Sizes(items, key, order)) == |items|
  {
    if items == [] {
      NoSizes(key, order);
    } else {
      var n := |items| - 1;
      assert items == items[..n] + [items[n]] && items[n] in items && forall x :: x in items[..n] ==> x in items;
      GroupsPartition(items[..n], key, order);
      SizesGrow(items[..n], items[n], key, order);
    }
  }

  lemma {:induction false} NoSizes<V, K>(key: V -> K, order: seq<K>)
    ensures Sum(Sizes([], key, order)) == 0
  {
    if order != [] {
      NoSizes(key, order[1..]);
      assert Sizes([], key, order)[1..] == Sizes([], key, order[1..]);
    }
  }

  /** A list of distinct keys taken from another list is no longer than it. */
  lemma DistinctWithin<K>(a: seq<K>, b: seq<K>)
    requires Distinct(a) && forall x :: x in a ==> x in b
    ensures |a| <= |b|
  {
    CardinalityOfDistinct(a);
    CardinalityOfDistinct(b);
    SubsetSize((set x | x in a), (set x | x in b));
  }

  lemma {:induction false} SubsetSize<K>(s: set<K>, t: set<K>)
    requires s <= t
    ensures |t| == |s| + |t - s|
  {
    assert t == s + (t - s);
  }

  lemma {:induction false} MapIgnoresOrder<A, B>(a: seq<A>, b: seq<A>, f: A -> B)
    requires multiset(a) == multiset(b)
    ensures multiset(Map(a, f)) == multiset(Map(b, f))
    decreases |a|
  {
    if a == [] {
      MultisetMembers(a, b);
    } else {
      var i := RemoveMatch(a, b);
      var shorter := b[..i] + b[i + 1..];
      MapIgnoresOrder(a[1..], shorter, f);
      assert Map(a, f) == [f(a[0])] + Map(a[1..], f);
      RemoveAt(Map(b, f), i);
      assert Map(b, f)[..i] + Map(b, f)[i + 1..] == Map(shorter, f);
    }
  }

  function Map<A, B>(s: seq<A>, f: A -> B): (r: seq<B>)
    ensures |r| == |s| && forall i :: 0 <= i < |s| ==> r[i] == f(s[i])
  {
    seq(|s|, i requires 0 <= i < |s| => f(s[i]))
  }

  lemma MapHolds<A, B>(s: seq<A>, f: A -> B, x: A)
    requires x in s
    ensures f(x) in Map(s, f)
  {
    var i :| 0 <= i < |s| && s[i] == x;
    assert Map(s, f)[i] == f(x);
  }

  lemma MapMembers<A, B(!new)>(s: seq<A>, f: A -> B)
    ensures forall y :: y in Map(s, f) <==> exists x :: x in s && f(x) == y
  {
    forall y ensures y in Map(s, f) <==> exists x :: x in s && f(x) == y {
      if x :| x in s && f(x) == y {
        var i :| 0 <= i < |s| && s[i] == x;
        assert Map(s, f)[i] == y;
      }
    }
  }

  // ---- Lists built item by item, up to the first refusal ------------------------------------------

  function Collect<A, B, E>(items: seq<A>, f: A -> Result<B, E>): Result<seq<B>, E> {
    if items == [] then Success([]) else
    var n := |items| - 1;
    var front := Collect(items[..n], f);
    if front.Failure? then front else
    var last := f(items[n]);
    if last.Failure? then Failure(last.error) else Success(front.value + [last.value])
  }

  lemma CollectStep<A, B, E>(items: seq<A>, f: A -> Result<B, E>, i: nat)
    requires i < |items| && Collect(items[..i], f).Success?
    ensures Collect(items[..i + 1], f) ==
            if f(items[i]).Failure? then Failure(f(items[i]).error) else Success(Collect(items[..i], f).value + [f(items[i]).value])
  {
    assert items[..i + 1][..i] == items[..i];
  }

  lemma {:induction false} CollectStays<A, B, E>(items: seq<A>, f: A -> Result<B, E>, i: nat)
    requires i <= |items| && Collect(items[..i], f).Failure?
    ensures Collect(items, f) == Collect(items[..i], f)
    decreases |items|
  {
    if i == |items| {
      assert items[..i] == items;
    } else {
      assert items[..|items| - 1][..i] == items[..i];
      CollectStays(items[..|items| - 1], f, i);
    }
  }

  lemma {:induction false} CollectEach<A, B, E>(items: seq<A>, f: A -> Result<B, E>)
    ensures var r := Collect(items, f);
            && (r.Success? <==> forall i :: 0 <= i < |items| ==> f(items[i]).Success?)
            && (r.Success? ==> |r.value| == |items| && forall i :: 0 <= i < |items| ==> r.value[i] == f(items[i]).value)
            && (r.Failure? ==> exists i :: 0 <= i < |items| && f(items[i]) == Failure(r.error))
  {
    if items != [] {
      var n := |items| - 1;
      CollectEach(items[..n], f);
      assert forall i :: 0 <= i < n ==> items[..n][i] == items[i];
    }
  }

  lemma {:induction false} CollectAgrees<A, B, E>(items: seq<A>, f: A -> Result<B, E>, g: A -> Result<B, E>)
    requires forall i :: 0 <= i < |items| ==> f(items[i]) == g(items[i])
    ensures Collect(items, f) == Collect(items, g)
  {
    if items != [] { CollectAgrees(items[..|items| - 1], f, g); }
  }

  lemma CollectIgnoresOrder<A, B, E>(a: seq<A>, b: seq<A>, f: A -> Result<B, E>)
    requires multiset(a) == multiset(b) && Collect(a, f).Success?
    ensures Collect(b, f).Success? && multiset(Collect(a, f).value) == multiset(Collect(b, f).value)
  {
    CollectEach(a, f);
    CollectEach(b, f);
    MultisetMembers(a, b);
    forall i | 0 <= i < |b| ensures f(b[i]).Success? { assert b[i] in a; }
    if a != [] {
      var spare := Collect(a, f).value[0];
      var g := (x: A) => var r := f(x); if r.Success? then r.value else spare;
      assert Collect(a, f).value == Map(a, g) && Collect(b, f).value == Map(b, g);
      MapIgnoresOrder(a, b, g);
    }
  }
}
