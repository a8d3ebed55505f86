/** The plan ignores the order in which its specs arrive, names included. */
module WindowOrder {
  import opened Wrappers
  import opened Ordering
  import G = Grouping
  import opened WindowAlgebra
  import opened WindowTheorems

  function Bodies(rows: seq<Spec>): seq<Window> {
    seq(|rows|, i requires 0 <= i < |rows| => rows[i].body)
  }

  function BodyIn(s: Spec): Window { s.body }

  lemma BodiesMultiset(a: seq<Spec>, b: seq<Spec>)
    requires multiset(a) == multiset(b)
    ensures multiset(Bodies(a)) == multiset(Bodies(b))
  {
    G.MapIgnoresOrder(a, b, BodyIn);
    assert Bodies(a) == G.Map(a, BodyIn) && Bodies(b) == G.Map(b, BodyIn);
  }

  lemma BodiesAreKeyed(a: seq<Spec>, f: Window)
    requires OfFile(a, f)
    ensures KeyedBy(Bodies(a), BodyLe)
  {
    forall x, y | x in Bodies(a) && y in Bodies(a) && BodyLe(x, y) && BodyLe(y, x) ensures x == y {
      var i :| 0 <= i < |a| && Bodies(a)[i] == x;
      var j :| 0 <= j < |a| && Bodies(a)[j] == y;
      assert a[i] in a && a[j] in a;
      RankIsInjective(x.role, y.role);
    }
  }

  lemma BodiesSorted(a: seq<Spec>)
    requires Sorted(a, RowLe)
    ensures Sorted(Bodies(a), BodyLe)
  {
    forall i, j | 0 <= i < j < |a| ensures BodyLe(Bodies(a)[i], Bodies(a)[j]) {
      assert RowLe(a[i], a[j]);
    }
  }

  /** Two sorted arrangements of the same rows of one file have the same bodies in order. */
  lemma SameBodies(a: seq<Spec>, b: seq<Spec>, f: Window)
    requires multiset(a) == multiset(b) && Sorted(a, RowLe) && Sorted(b, RowLe) && OfFile(a, f)
    ensures Bodies(a) == Bodies(b)
  {
    BodiesMultiset(a, b);
    BodiesAreKeyed(a, f);
    BodiesSorted(a);
    BodiesSorted(b);
    assert TotalPreorder(BodyLe);
    SortedIsUnique(Bodies(a), Bodies(b), BodyLe);
  }

  lemma RankIsInjective(a: Role, b: Role)
    ensures Rank(a) == Rank(b) ==> a == b
  {}

  /** Row i has a twin next to it: same body, possibly another name. */
  predicate Twin(rows: seq<Spec>, i: int) {
    && 0 <= i < |rows|
    && ((0 < i && rows[i - 1].body == rows[i].body) || (i + 1 < |rows| && rows[i + 1].body == rows[i].body))
  }

  /** Where two arrangements differ at all, they differ between twins. */
  lemma DifferAtTwins(a: seq<Spec>, b: seq<Spec>, f: Window, i: nat)
    requires multiset(a) == multiset(b) && Sorted(a, RowLe) && Sorted(b, RowLe) && OfFile(a, f)
    requires i < |a|
    ensures |a| == |b| && (a[i] == b[i] || Twin(a, i))
  {
    SameBodies(a, b, f);
    MultisetMembers(a, b);
    if a[i] != b[i] {
      assert a[i] in b;
      var j :| 0 <= j < |b| && b[j] == a[i];
      assert a[j].body == Bodies(a)[j] == Bodies(b)[j] == a[i].body;
      Between(a, f, i, j);
    }
  }

  lemma Between(a: seq<Spec>, f: Window, i: nat, j: nat)
    requires Sorted(a, RowLe) && OfFile(a, f) && i < |a| && j < |a| && i != j && a[i].body == a[j].body
    ensures Twin(a, i)
  {
    var near := if j < i then i - 1 else i + 1;
    assert a[near] in a && a[i] in a;
    assert j == near || (if j < i then RowLe(a[j], a[near]) else RowLe(a[near], a[j]));
    assert RowLe(a[near], a[i]) && RowLe(a[i], a[near]);
    RankIsInjective(a[near].body.role, a[i].body.role);
  }

  /** The last row absorbs the window, so a merge is what comes next. */
  ghost predicate Absorbs(bytes: Measure, merged: seq<Spec>, w: Window) {
    && merged != []
    && merged[|merged| - 1].body.Of() == w.Of()
    && Mergeable(bytes, merged[|merged| - 1].body, w)
  }

  /** After a step the last row absorbs the body just processed. */
  lemma StepAbsorbs(bytes: Measure, names: Naming, merged: seq<Spec>, s: Spec, f: Window)
    requires Monotone(bytes) && OfFile(merged, f) && OfFile([s], f) && StartBy(merged, s.body.start)
    ensures Absorbs(bytes, Step(bytes, names, merged, s), s.body)
  {
    assert s in [s];
    if merged != [] {
      var last := merged[|merged| - 1];
      assert last in merged;
      if Mergeable(bytes, last.body, s.body) && !SameSpan(s.body, last.body) {
        var wide := Widen(names, last, s).body;
        CappedBySpan(bytes, Hull(last.body, s.body), wide);
        assert Hull(wide, s.body) == wide;
      }
    }
  }

  /** A window that is absorbed leaves no trace of its name. */
  lemma AbsorbedNameless(bytes: Measure, names: Naming, merged: seq<Spec>, s: Spec, t: Spec)
    requires s.body == t.body && Absorbs(bytes, merged, s.body)
    ensures Step(bytes, names, merged, s) == Step(bytes, names, merged, t)
  {}

  /** Two twins that are not absorbed: the second widens the first into a renamed row. */
  lemma TwinsNameless(bytes: Measure, names: Naming, merged: seq<Spec>, s: Spec, s2: Spec, t: Spec, t2: Spec)
    requires s.body == s2.body == t.body == t2.body && !Absorbs(bytes, merged, s.body)
    requires s.body.start <= s.body.end
    ensures Step(bytes, names, Step(bytes, names, merged, s), s2) == Step(bytes, names, Step(bytes, names, merged, t), t2)
  {
    assert Step(bytes, names, merged, s) == merged + [s];
    assert Step(bytes, names, merged, t) == merged + [t];
    assert (merged + [s])[..|merged|] == merged && (merged + [t])[..|merged|] == merged;
  }

  ghost predicate DifferOnlyAtTwins(a: seq<Spec>, b: seq<Spec>) {
    && Bodies(a) == Bodies(b)
    && forall i :: 0 < i < |a| ==> a[i] == b[i] || Twin(a, i)
  }

  lemma DifferTail(a: seq<Spec>, b: seq<Spec>)
    requires DifferOnlyAtTwins(a, b) && a != []
    ensures |a| == |b| && a[0].body == b[0].body
    ensures DifferOnlyAtTwins(a[1..], b[1..])
    ensures |a| > 1 ==> a[1].body == b[1].body
    ensures |a| > 1 ==> a[1] == b[1] || a[1].body == a[0].body || (|a| > 2 && a[2].body == a[1].body)
  {
    assert a[0].body == Bodies(a)[0] == Bodies(b)[0] == b[0].body;
    var a1, b1 := a[1..], b[1..];
    assert Bodies(a1) == Bodies(a)[1..] && Bodies(b1) == Bodies(b)[1..];
    forall i | 0 < i < |a1| ensures a1[i] == b1[i] || Twin(a1, i) {
      assert a1[i] == a[i + 1] && b1[i] == b[i + 1] && a1[i - 1] == a[i];
      assert a[i + 1] == b[i + 1] || Twin(a, i + 1);
    }
    if |a| > 1 {
      assert a[1].body == Bodies(a)[1] == Bodies(b)[1] == b[1].body;
      assert a[1] == b[1] || Twin(a, 1);
    }
  }

  /** The fold forgets which of two twins came first: the merge renames the row. */
  lemma {:induction false} FoldForgetsTwins(bytes: Measure, names: Naming, merged: seq<Spec>, a: seq<Spec>, b: seq<Spec>, f: Window)
    requires Monotone(bytes) && Ready(merged, a, f) && DifferOnlyAtTwins(a, b)
    requires a != [] ==> a[0] == b[0] || (|a| > 1 && a[1].body == a[0].body) || Absorbs(bytes, merged, a[0].body)
    ensures Fold(bytes, names, merged, a) == Fold(bytes, names, merged, b)
    decreases |a|
  {
    if a != [] {
      DifferTail(a, b);
      StepReady(bytes, names, merged, a, f);
      StepAbsorbs(bytes, names, merged, a[0], f);
      var next := Step(bytes, names, merged, a[0]);
      if a[0] == b[0] || Absorbs(bytes, merged, a[0].body) {
        if a[0] != b[0] { AbsorbedNameless(bytes, names, merged, a[0], b[0]); }
        FoldForgetsTwins(bytes, names, next, a[1..], b[1..], f);
      } else {
        assert a[0] in a;
        DifferTail(a[1..], b[1..]);
        TwinsNameless(bytes, names, merged, a[0], a[1], b[0], b[1]);
        StepReady(bytes, names, next, a[1..], f);
        StepAbsorbs(bytes, names, next, a[1], f);
        FoldForgetsTwins(bytes, names, Step(bytes, names, next, a[1]), a[1..][1..], b[1..][1..], f);
      }
    }
  }

  lemma GroupIgnoresOrder(bytes: Measure, names: Naming, specs: seq<Spec>, permuted: seq<Spec>, k: Source)
    requires Monotone(bytes) && ValidSpans(specs) && SameBlobs(specs) && multiset(specs) == multiset(permuted)
    ensures Group(bytes, names, specs, k) == Group(bytes, names, permuted, k)
  {
    var a, b := Sort(Rows(specs, k), RowLe), Sort(Rows(permuted, k), RowLe);
    OrdersAreTotal();
    RowsMultiset(specs, permuted, k);
    SortSpec(Rows(specs, k), RowLe);
    SortSpec(Rows(permuted, k), RowLe);
    var f := SortedRowsShape(specs, k);
    MultisetMembers(a, b);
    SameBodies(a, b, f);
    forall i | 0 <= i < |a| ensures a[i] == b[i] || Twin(a, i) {
      DifferAtTwins(a, b, f, i);
    }
    FoldForgetsTwins(bytes, names, [], a, b, f);
  }

  /** The plan of any arrangement of the same specs is the same plan, and is refused exactly
      when theirs is: which of two equal windows came first leaves no trace, because a merged
      row is renamed after its body. */
  lemma UnionIgnoresOrder(bytes: Measure, names: Naming, specs: seq<Spec>, permuted: seq<Spec>)
    requires Monotone(bytes) && ValidSpans(specs) && multiset(specs) == multiset(permuted)
    ensures Union(bytes, names, specs) == Union(bytes, names, permuted)
  {
    MultisetMembers(specs, permuted);
    NoConflict(specs);
    NoConflict(permuted);
    assert ValidSpans(permuted);
    if SameBlobs(specs) {
      assert SameBlobs(permuted);
      var a, b := Union(bytes, names, specs).value, Union(bytes, names, permuted).value;
      forall k ensures Rows(a, k) == Rows(b, k) && NormalForm(bytes, Rows(a, k)) {
        GroupIgnoresOrder(bytes, names, specs, permuted, k);
        UnionGroup(bytes, names, specs, k);
        UnionGroup(bytes, names, permuted, k);
        GroupOfPlan(bytes, names, names, specs, k);
      }
      GroupCountInPlan(bytes, names, specs, Source(Base, ""));
      GroupCountInPlan(bytes, names, permuted, Source(Base, ""));
      PlanIsItsGroups(bytes, a, b);
    } else {
      assert !SameBlobs(permuted);
    }
  }
}
