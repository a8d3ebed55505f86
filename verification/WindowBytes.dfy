/** Byte accounting of the two plans (evaluator/pipeline.py `packet_v3_account`). */
module WindowBytes {
  import opened Wrappers
  import opened Ordering
  import opened SourcePayload
  import opened WindowAlgebra
  import opened WindowTheorems

  function Bytes(bytes: Measure, w: Window): nat {
    if bytes(w).Some? then bytes(w).value else 0
  }

  /** `packet_v3_admitted_bytes`: overlapping rows are counted once each. */
  function TotalBytes(bytes: Measure, rows: seq<Spec>): nat {
    if rows == [] then 0 else TotalBytes(bytes, rows[..|rows| - 1]) + Bytes(bytes, rows[|rows| - 1].body)
  }

  method AdmittedBytes(bytes: Measure, specs: seq<Spec>) returns (total: nat)
    ensures total == TotalBytes(bytes, specs)
  {
    total := 0;
    for i := 0 to |specs|
      invariant total == TotalBytes(bytes, specs[..i])
    {
      assert specs[..i + 1][..i] == specs[..i];
      if bytes(specs[i].body).Some? {
        total := total + bytes(specs[i].body).value;
      }
    }
    assert specs[..|specs|] == specs;
  }

  predicate ModelEligible(coreBytes: int, treatmentBytes: int) {
    coreBytes <= MAX_SOURCE_BYTES && treatmentBytes <= MAX_SOURCE_BYTES
  }

  datatype Account = Account(core: seq<Spec>, treatment: seq<Spec>, coreBytes: nat, treatmentBytes: nat, eligible: bool)

  function AccountOf(blobs: Blobs, names: Naming, baseline: seq<Spec>, callee: Spec, windows: seq<Spec>): Result<Account, PlanError> {
    var bytes := Measured(blobs);
    match Union(bytes, names, baseline + [callee])
    case Failure(e) => Failure(e)
    case Success(core) =>
      match Union(bytes, names, core + windows)
      case Failure(e) => Failure(e)
      case Success(treatment) =>
        var a, b := TotalBytes(bytes, core), TotalBytes(bytes, treatment);
        Success(Account(core, treatment, a, b, ModelEligible(a, b)))
  }

  /** `packet_v3_account`: both plans, their byte counts and the eligibility of the pair. */
  method PacketAccount(blobs: Blobs, names: Naming, baseline: seq<Spec>, callee: Spec, windows: seq<Spec>) returns (r: Result<Account, PlanError>)
    ensures r == AccountOf(blobs, names, baseline, callee, windows)
  {
    var bytes := Measured(blobs);
    var core := UnionSpecs(baseline, [callee], bytes, names);
    if core.Failure? { return Failure(core.error); }
    var treatment := UnionSpecs(core.value, windows, bytes, names);
    if treatment.Failure? { return Failure(treatment.error); }
    var a := AdmittedBytes(bytes, core.value);
    var b := AdmittedBytes(bytes, treatment.value);
    return Success(Account(core.value, treatment.value, a, b, ModelEligible(a, b)));
  }

  // ---- Sums -------------------------------------------------------------------------------

  lemma {:induction false} TotalAppend(bytes: Measure, a: seq<Spec>, b: seq<Spec>)
    ensures TotalBytes(bytes, a + b) == TotalBytes(bytes, a) + TotalBytes(bytes, b)
    decreases |b|
  {
    if b == [] {
      assert a + b == a;
    } else {
      TotalAppend(bytes, a, b[..|b| - 1]);
      assert (a + b)[..|a + b| - 1] == a + b[..|b| - 1];
    }
  }

  lemma TotalSnoc(bytes: Measure, a: seq<Spec>, x: Spec)
    ensures TotalBytes(bytes, a + [x]) == TotalBytes(bytes, a) + Bytes(bytes, x.body)
  {
    assert (a + [x])[..|a|] == a;
  }

  lemma TotalRange(bytes: Measure, rows: seq<Spec>, i: nat, j: nat)
    requires i <= j <= |rows|
    ensures TotalBytes(bytes, rows[..j]) == TotalBytes(bytes, rows[..i]) + TotalBytes(bytes, rows[i..j])
  {
    TotalAppend(bytes, rows[..i], rows[i..j]);
    assert rows[..j] == rows[..i] + rows[i..j];
  }

  function Others(rows: seq<Spec>, k: Source): (r: seq<Spec>)
    ensures |r| <= |rows|
    ensures forall x :: x in rows && x.body.Of() == k ==> |r| < |rows|
  {
    if rows == [] then [] else
    var n := |rows| - 1;
    assert rows == rows[..n] + [rows[n]];
    Others(rows[..n], k) + (if rows[n].body.Of() == k then [] else [rows[n]])
  }

  lemma SnocSplits(front: seq<Spec>, x: Spec, k: Source)
    ensures Rows(front + [x], k) == if x.body.Of() == k then Rows(front, k) + [x] else Rows(front, k)
    ensures Others(front + [x], k) == if x.body.Of() == k then Others(front, k) else Others(front, k) + [x]
  {
    assert (front + [x])[..|front|] == front;
    assert Rows(front, k) + [] == Rows(front, k) && Others(front, k) + [] == Others(front, k);
  }

  lemma {:induction false} TotalSplits(bytes: Measure, rows: seq<Spec>, k: Source)
    ensures TotalBytes(bytes, rows) == TotalBytes(bytes, Rows(rows, k)) + TotalBytes(bytes, Others(rows, k))
  {
    if rows != [] {
      var front, x := rows[..|rows| - 1], rows[|rows| - 1];
      assert rows == front + [x];
      TotalSplits(bytes, front, k);
      SnocSplits(front, x, k);
      TotalSnoc(bytes, if x.body.Of() == k then Rows(front, k) else Others(front, k), x);
    }
  }

  lemma {:induction false} RowsOfOthers(rows: seq<Spec>, k: Source, k': Source)
    ensures Rows(Others(rows, k), k') == if k == k' then [] else Rows(rows, k')
  {
    if rows != [] {
      var front, x := rows[..|rows| - 1], rows[|rows| - 1];
      assert rows == front + [x];
      RowsOfOthers(front, k, k');
      SnocSplits(front, x, k);
      SnocSplits(front, x, k');
      SnocSplits(Others(front, k), x, k');
    }
  }

  lemma {:induction false} TotalByGroups(bytes: Measure, a: seq<Spec>, b: seq<Spec>)
    requires forall k :: TotalBytes(bytes, Rows(a, k)) <= TotalBytes(bytes, Rows(b, k))
    ensures TotalBytes(bytes, a) <= TotalBytes(bytes, b)
    decreases |a|
  {
    if a != [] {
      var k := a[0].body.Of();
      assert a[0] in a;
      TotalSplits(bytes, a, k);
      TotalSplits(bytes, b, k);
      forall k' ensures TotalBytes(bytes, Rows(Others(a, k), k')) <= TotalBytes(bytes, Rows(Others(b, k), k')) {
        RowsOfOthers(a, k, k');
        RowsOfOthers(b, k, k');
      }
      TotalByGroups(bytes, Others(a, k), Others(b, k));
    }
  }

  // ---- Rows that share no line fit into one window ------------------------------------------

  predicate PartsOf(a: Window, b: Window, w: Window) {
    SameFile(a, w) && SameFile(b, w) && w.start <= a.start <= a.end < b.start <= b.end <= w.end
  }

  /** Two disjoint parts of an available window have no more bytes than the window. */
  ghost predicate Splits(bytes: Measure) {
    forall w, a, b {:trigger PartsOf(a, b, w)} :: PartsOf(a, b, w) && bytes(w).Some?
      ==> Bytes(bytes, a) + Bytes(bytes, b) <= bytes(w).value
  }

  lemma MeasuredSplits(blobs: Blobs)
    ensures Splits(Measured(blobs))
  {
    forall w: Window, a: Window, b: Window | PartsOf(a, b, w) && ByteLength(blobs, w).Some?
      ensures Bytes(Measured(blobs), a) + Bytes(Measured(blobs), b) <= ByteLength(blobs, w).value
    {
      var file := blobs(w.side, w.path, w.blob).value;
      AdjacentExcerptsConcatenate(file, w.start, a.end, w.end);
      WiderExcerptIsLonger(file, a.start, a.end, w.start, a.end);
      WiderExcerptIsLonger(file, b.start, b.end, a.end + 1, w.end);
    }
  }

  ghost predicate Apart(rows: seq<Spec>) {
    forall i :: 0 < i < |rows| ==> rows[i - 1].body.end < rows[i].body.start
  }

  ghost predicate Inside(rows: seq<Spec>, w: Window) {
    OfFile(rows, w) && forall x :: x in rows ==> Contains(w, x.body)
  }

  lemma DropLastInside(rows: seq<Spec>, w: Window) returns (left: Window)
    requires |rows| > 1 && Apart(rows) && Inside(rows, w)
    ensures left == w.(end := rows[|rows| - 1].body.start - 1) && left.start <= left.end < w.end
    ensures Inside(rows[..|rows| - 1], left) && Apart(rows[..|rows| - 1])
  {
    var n := |rows| - 1;
    left := w.(end := rows[n].body.start - 1);
    assert rows[n - 1] in rows && rows[n] in rows;
    forall x | x in rows[..n] ensures Contains(left, x.body) && SameFile(x.body, left) && 1 <= x.body.start <= x.body.end {
      var i :| 0 <= i < n && rows[i] == x;
      EndsIncrease(rows, i, n - 1, w);
      assert x in rows;
    }
  }

  lemma {:induction false} DisjointFit(bytes: Measure, rows: seq<Spec>, w: Window)
    requires Monotone(bytes) && Splits(bytes) && bytes(w).Some? && w.start <= w.end
    requires Inside(rows, w) && Apart(rows)
    ensures TotalBytes(bytes, rows) <= bytes(w).value
    decreases |rows|
  {
    if rows != [] {
      var n := |rows| - 1;
      var last := rows[n].body;
      assert rows[n] in rows;
      if n == 0 {
        assert PartOf(last, w);
      } else {
        var left := DropLastInside(rows, w);
        assert PartOf(left, w) && PartsOf(left, last, w);
        DisjointFit(bytes, rows[..n], left);
      }
    }
  }

  lemma {:induction false} EndsIncrease(rows: seq<Spec>, i: nat, j: nat, f: Window)
    requires i <= j < |rows| && OfFile(rows, f)
    requires Apart(rows)
    ensures rows[i].body.end <= rows[j].body.end
    decreases j
  {
    if i < j {
      EndsIncrease(rows, i, j - 1, f);
      assert rows[j] in rows;
    }
  }

  // ---- The merge never loses bytes of a plan in normal form -----------------------------------

  /** Core rows i..j are the ones the last merged row has swallowed. */
  ghost predicate Swallowed(bytes: Measure, last: Window, core: seq<Spec>, i: nat, j: nat)
    requires i <= j <= |core|
  {
    && (forall k :: i <= k < j ==> Contains(last, core[k].body))
    && (Capped(bytes, last) || i == j || (j == i + 1 && SameSpan(last, core[i].body)))
  }

  lemma SwallowedBytes(bytes: Measure, last: Window, core: seq<Spec>, i: nat, j: nat)
    requires Monotone(bytes) && Splits(bytes) && OfFile(core, last) && NormalForm(bytes, core)
    requires i <= j <= |core| && Swallowed(bytes, last, core, i, j) && last.start <= last.end
    ensures TotalBytes(bytes, core[i..j]) <= Bytes(bytes, last)
  {
    if i < j {
      if Capped(bytes, last) {
        var rows := core[i..j];
        forall x | x in rows ensures Contains(last, x.body) {
          var k :| 0 <= k < |rows| && rows[k] == x;
          assert core[i + k] == x;
        }
        assert Inside(rows, last);
        forall k | 0 < k < |rows| ensures rows[k - 1].body.end < rows[k].body.start {
          assert core[i + k - 1] in core && core[i + k] in core;
          ApartInsideCap(bytes, last, core[i + k - 1].body, core[i + k].body);
        }
        DisjointFit(bytes, rows, last);
      } else {
        assert core[i] in core;
        assert PartOf(last, core[i].body) && PartOf(core[i].body, last);
        assert core[i..j] == [core[i]];
        TotalSnoc(bytes, [], core[i]);
      }
    }
  }

  /** Two unmergeable rows inside one capped window cannot touch. */
  lemma ApartInsideCap(bytes: Measure, w: Window, a: Window, b: Window)
    requires Monotone(bytes) && Capped(bytes, w) && SameFile(a, w) && SameFile(b, w)
    requires Contains(w, a) && Contains(w, b) && a.start <= a.end && b.start <= b.end
    requires Before(a, b) && !Mergeable(bytes, a, b)
    ensures a.end < b.start
  {
    var hull := Hull(a, b);
    assert PartOf(hull, w);
    assert Capped(bytes, hull);
  }

  ghost predicate SpanIn(rows: seq<Spec>, w: Window) {
    exists s :: s in rows && SameSpan(s.body, w)
  }

  /** How far the fold has come through the core rows. */
  ghost predicate Progress(bytes: Measure, merged: seq<Spec>, rows: seq<Spec>, core: seq<Spec>, i: nat, j: nat) {
    && i <= j <= |core|
    && (if merged == [] then j == 0 else Balanced(bytes, merged, core, i, j))
    && (forall k :: j <= k < |core| ==> SpanIn(rows, core[k].body))
  }

  lemma LaterMatch(rows: seq<Spec>, core: seq<Spec>, j: nat, k: nat, p: nat)
    requires Sorted(rows, RowLe) && p < |rows| && j < k < |core|
    requires SpanIn(rows, core[j].body) && Before(core[j].body, core[k].body)
    requires SameSpan(rows[p].body, core[k].body)
    ensures p > 0
  {
    var t :| t in rows && SameSpan(t.body, core[j].body);
    var q :| 0 <= q < |rows| && rows[q] == t;
    assert p < q ==> RowLe(rows[p], rows[q]);
  }

  /** The core rows still to come are among the rows still to come. */
  lemma StillToCome(bytes: Measure, rows: seq<Spec>, core: seq<Spec>, j: nat, j': nat)
    requires rows != [] && Sorted(rows, RowLe) && NormalForm(bytes, core) && j <= |core|
    requires forall k :: j <= k < |core| ==> SpanIn(rows, core[k].body)
    requires j' == if j < |core| && SameSpan(rows[0].body, core[j].body) then j + 1 else j
    ensures forall k :: j' <= k < |core| ==> SpanIn(rows[1..], core[k].body)
  {
    forall k | j' <= k < |core| ensures SpanIn(rows[1..], core[k].body) {
      var s :| s in rows && SameSpan(s.body, core[k].body);
      var p :| 0 <= p < |rows| && rows[p] == s;
      if j < k { LaterMatch(rows, core, j, k, p); }
      assert rows[1..][p - 1] == s;
    }
  }

  /** The last row and what it has swallowed; the rows before it account for the rest. */
  ghost predicate Balanced(bytes: Measure, merged: seq<Spec>, core: seq<Spec>, i: nat, j: nat)
    requires i <= j <= |core|
  {
    && merged != []
    && TotalBytes(bytes, core[..i]) <= TotalBytes(bytes, merged[..|merged| - 1])
    && Swallowed(bytes, merged[|merged| - 1].body, core, i, j)
  }

  lemma MergeBalanced(bytes: Measure, names: Naming, merged: seq<Spec>, s: Spec, core: seq<Spec>, i: nat, j: nat, j': nat, f: Window)
    requires Monotone(bytes) && OfFile(merged, f) && OfFile([s], f) && StartBy(merged, s.body.start)
    requires OfFile(core, f) && NormalForm(bytes, core) && i <= j <= j' <= |core|
    requires Balanced(bytes, merged, core, i, j)
    requires Mergeable(bytes, merged[|merged| - 1].body, s.body)
    requires j' == if j < |core| && SameSpan(s.body, core[j].body) then j + 1 else j
    ensures Balanced(bytes, Step(bytes, names, merged, s), core, i, j')
  {
    var n := |merged|;
    var last := merged[n - 1];
    assert last in merged && s in [s];
    var next := Step(bytes, names, merged, s);
    assert next[..n - 1] == merged[..n - 1] && next[n - 1] == Widen(names, last, s);
    MergeSwallows(bytes, names, last, s, core, i, j, j', f);
  }

  lemma PushBalanced(bytes: Measure, merged: seq<Spec>, s: Spec, core: seq<Spec>, j: nat, j': nat)
    requires j <= j' <= |core| && TotalBytes(bytes, core[..j]) <= TotalBytes(bytes, merged)
    requires j' == if j < |core| && SameSpan(s.body, core[j].body) then j + 1 else j
    ensures Balanced(bytes, merged + [s], core, j, j')
  {
    assert (merged + [s])[..|merged|] == merged;
  }

  lemma StepBalanced(bytes: Measure, names: Naming, merged: seq<Spec>, s: Spec, core: seq<Spec>, i: nat, j: nat, f: Window) returns (i': nat, j': nat)
    requires Monotone(bytes) && Splits(bytes) && OfFile(merged, f) && OfFile([s], f) && StartBy(merged, s.body.start)
    requires OfFile(core, f) && NormalForm(bytes, core) && i <= j <= |core|
    requires if merged == [] then j == 0 else Balanced(bytes, merged, core, i, j)
    ensures i' <= j' <= |core| && j' == if j < |core| && SameSpan(s.body, core[j].body) then j + 1 else j
    ensures Balanced(bytes, Step(bytes, names, merged, s), core, i', j')
  {
    j' := if j < |core| && SameSpan(s.body, core[j].body) then j + 1 else j;
    assert s in [s];
    if merged != [] && merged[|merged| - 1].body.Of() == s.body.Of() && Mergeable(bytes, merged[|merged| - 1].body, s.body) {
      i' := i;
      MergeBalanced(bytes, names, merged, s, core, i, j, j', f);
    } else {
      i' := j;
      if merged == [] { assert core[..0] == []; } else { KeptSoFar(bytes, merged, core, i, j, f); }
      PushBalanced(bytes, merged, s, core, j, j');
    }
  }

  lemma KeptSoFar(bytes: Measure, merged: seq<Spec>, core: seq<Spec>, i: nat, j: nat, f: Window)
    requires Monotone(bytes) && Splits(bytes)
    requires OfFile(merged, f) && OfFile(core, f) && NormalForm(bytes, core) && i <= j <= |core|
    requires Balanced(bytes, merged, core, i, j)
    ensures TotalBytes(bytes, core[..j]) <= TotalBytes(bytes, merged)
  {
    var last := merged[|merged| - 1];
    assert last in merged;
    assert OfFile(core, last.body);
    SwallowedBytes(bytes, last.body, core, i, j);
    TotalRange(bytes, core, i, j);
  }

  lemma MergeSwallows(bytes: Measure, names: Naming, last: Spec, s: Spec, core: seq<Spec>, i: nat, j: nat, j': nat, f: Window)
    requires Monotone(bytes) && OfFile([last, s], f) && last.body.start <= s.body.start
    requires Mergeable(bytes, last.body, s.body)
    requires OfFile(core, f) && NormalForm(bytes, core) && i <= j <= j' <= |core|
    requires Swallowed(bytes, last.body, core, i, j)
    requires j' == if j < |core| && SameSpan(s.body, core[j].body) then j + 1 else j
    ensures Swallowed(bytes, Widen(names, last, s).body, core, i, j')
  {
    assert last in [last, s] && s in [last, s];
    var wide := Widen(names, last, s).body;
    if SameSpan(s.body, last.body) {
      CappedBySpan(bytes, wide, last.body);
      assert i < j < |core| ==> Before(core[i].body, core[j].body);
    } else {
      CappedBySpan(bytes, Hull(last.body, s.body), wide);
    }
  }

  ghost predicate Accounted(bytes: Measure, merged: seq<Spec>, rows: seq<Spec>, core: seq<Spec>, i: nat, j: nat, f: Window) {
    && Monotone(bytes) && Splits(bytes) && Ready(merged, rows, f) && Sorted(rows, RowLe)
    && OfFile(core, f) && NormalForm(bytes, core)
    && Progress(bytes, merged, rows, core, i, j)
  }

  lemma SortedTail(rows: seq<Spec>, rest: seq<Spec>)
    requires rows != [] && rest == rows[1..] && Sorted(rows, RowLe)
    ensures Sorted(rest, RowLe)
  {
  }

  lemma StepProgress(bytes: Measure, names: Naming, merged: seq<Spec>, rows: seq<Spec>, core: seq<Spec>, i: nat, j: nat, f: Window,
                     next: seq<Spec>, rest: seq<Spec>) returns (i': nat, j': nat)
    requires rows != [] && Accounted(bytes, merged, rows, core, i, j, f) && next == Step(bytes, names, merged, rows[0]) && rest == rows[1..]
    requires OfFile([rows[0]], f) && StartBy(merged, rows[0].body.start)
    ensures Progress(bytes, next, rest, core, i', j')
  {
    i', j' := StepBalanced(bytes, names, merged, rows[0], core, i, j, f);
    StillToCome(bytes, rows, core, j, j');
  }

  lemma StepAccounted(bytes: Measure, names: Naming, merged: seq<Spec>, rows: seq<Spec>, core: seq<Spec>, i: nat, j: nat, f: Window,
                      next: seq<Spec>, rest: seq<Spec>) returns (i': nat, j': nat)
    requires rows != [] && Accounted(bytes, merged, rows, core, i, j, f) && next == Step(bytes, names, merged, rows[0]) && rest == rows[1..]
    ensures Accounted(bytes, next, rest, core, i', j', f)
  {
    StepReady(bytes, names, merged, rows, f);
    SortedTail(rows, rest);
    i', j' := StepProgress(bytes, names, merged, rows, core, i, j, f, next, rest);
  }

  lemma NothingToCome(rows: seq<Spec>, core: seq<Spec>, j: nat)
    requires j <= |core| && forall k :: j <= k < |core| ==> SpanIn(rows, core[k].body)
    ensures rows == [] ==> j == |core|
  {
    if j < |core| { assert SpanIn(rows, core[j].body); }
  }

  lemma AllAccounted(bytes: Measure, merged: seq<Spec>, rows: seq<Spec>, core: seq<Spec>, i: nat, j: nat, f: Window)
    requires rows == [] && Accounted(bytes, merged, rows, core, i, j, f)
    ensures TotalBytes(bytes, core) <= TotalBytes(bytes, merged)
  {
    NothingToCome(rows, core, j);
    assert core[..|core|] == core;
    if merged != [] { KeptSoFar(bytes, merged, core, i, j, f); }
  }

  lemma {:induction false} FoldKeepsBytes(bytes: Measure, names: Naming, merged: seq<Spec>, rows: seq<Spec>, core: seq<Spec>, i: nat, j: nat, f: Window)
    requires Accounted(bytes, merged, rows, core, i, j, f)
    ensures TotalBytes(bytes, core) <= TotalBytes(bytes, Fold(bytes, names, merged, rows))
    decreases |rows|
  {
    if rows == [] {
      AllAccounted(bytes, merged, rows, core, i, j, f);
    } else {
      var next, rest := Step(bytes, names, merged, rows[0]), rows[1..];
      var i', j' := StepAccounted(bytes, names, merged, rows, core, i, j, f, next, rest);
      FoldKeepsBytes(bytes, names, next, rest, core, i', j', f);
    }
  }

  lemma GroupKeepsBytes(bytes: Measure, names: Naming, core: seq<Spec>, windows: seq<Spec>, k: Source)
    requires Monotone(bytes) && Splits(bytes)
    requires ValidSpans(core + windows) && SameBlobs(core + windows) && NormalForm(bytes, Rows(core, k))
    ensures TotalBytes(bytes, Rows(core, k)) <= TotalBytes(bytes, Group(bytes, names, core + windows, k))
  {
    var all, kept := core + windows, Rows(core, k);
    var rows := Sort(Rows(all, k), RowLe);
    var f := SortedRowsShape(all, k);
    forall x | x in kept ensures x in rows {
      assert x in all;
    }
    forall i | 0 <= i < |kept| ensures SpanIn(rows, kept[i].body) {
      assert kept[i] in kept;
      assert SameSpan(kept[i].body, kept[i].body);
    }
    FoldKeepsBytes(bytes, names, [], rows, kept, 0, 0, f);
  }

  // ---- Main results -------------------------------------------------------------------------

  /** Adding windows to a plan never admits fewer bytes, overlaps counted twice included. */
  lemma UnionKeepsBytes(bytes: Measure, names: Naming, specs: seq<Spec>, windows: seq<Spec>)
    requires Monotone(bytes) && Splits(bytes) && ValidSpans(specs) && ValidSpans(windows)
    requires Union(bytes, names, specs).Success?
    requires Union(bytes, names, Union(bytes, names, specs).value + windows).Success?
    ensures var core := Union(bytes, names, specs).value;
            TotalBytes(bytes, core) <= TotalBytes(bytes, Union(bytes, names, core + windows).value)
  {
    var core := Union(bytes, names, specs).value;
    var treatment := Union(bytes, names, core + windows).value;
    PlanIsValid(bytes, names, specs);
    assert ValidSpans(core + windows);
    NoConflict(core + windows);
    forall k ensures TotalBytes(bytes, Rows(core, k)) <= TotalBytes(bytes, Rows(treatment, k)) {
      GroupOfPlan(bytes, names, names, specs, k);
      GroupKeepsBytes(bytes, names, core, windows, k);
      UnionGroup(bytes, names, core + windows, k);
    }
    TotalByGroups(bytes, core, treatment);
  }

  /** The treatment admits at least the core's bytes, so its count alone decides the pair. */
  lemma TreatmentDecidesEligibility(blobs: Blobs, names: Naming, baseline: seq<Spec>, callee: Spec, windows: seq<Spec>)
    requires ValidSpans(baseline + [callee]) && ValidSpans(windows)
    requires AccountOf(blobs, names, baseline, callee, windows).Success?
    ensures var a := AccountOf(blobs, names, baseline, callee, windows).value;
            && a.coreBytes <= a.treatmentBytes
            && (a.eligible <==> a.treatmentBytes <= MAX_SOURCE_BYTES)
  {
    MeasuredIsMonotone(blobs);
    MeasuredSplits(blobs);
    UnionKeepsBytes(Measured(blobs), names, baseline + [callee], windows);
  }
}
