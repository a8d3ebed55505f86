/** What the source plan promises: normal form, order independence, byte monotonicity. */
module WindowTheorems {
  import opened Wrappers
  import opened Ordering
  import opened SourcePayload
  import opened WindowAlgebra

  predicate Contains(o: Window, w: Window) { o.start <= w.start && w.end <= o.end }

  predicate HasLine(w: Window, line: int) { w.start <= line <= w.end }

  predicate SameFile(a: Window, b: Window) { a.side == b.side && a.path == b.path && a.blob == b.blob }

  /** The spans callers pass: 1 <= start_line <= end_line (pipeline.py:127). */
  ghost predicate ValidSpans(specs: seq<Spec>) {
    forall s :: s in specs ==> 1 <= s.body.start <= s.body.end
  }

  ghost predicate SameBlobs(specs: seq<Spec>) {
    forall s, t :: s in specs && t in specs && s.body.Of() == t.body.Of() ==> s.body.blob == t.body.blob
  }

  predicate PartOf(w: Window, wide: Window) { SameFile(w, wide) && Contains(wide, w) && w.start <= w.end }

  /** What is needed of `union_byte_length`: a part is available, and no longer, when the whole is. */
  ghost predicate Monotone(bytes: Measure) {
    forall w, wide {:trigger PartOf(w, wide)} :: PartOf(w, wide) && bytes(wide).Some?
      ==> bytes(w).Some? && bytes(w).value <= bytes(wide).value
  }

  function Measured(blobs: Blobs): Measure { w => ByteLength(blobs, w) }

  lemma MeasuredIsMonotone(blobs: Blobs)
    ensures Monotone(Measured(blobs))
  {
    forall w: Window, wide: Window | PartOf(w, wide) && ByteLength(blobs, wide).Some?
      ensures ByteLength(blobs, w).Some? && ByteLength(blobs, w).value <= ByteLength(blobs, wide).value
    {
      WiderExcerptIsLonger(blobs(w.side, w.path, w.blob).value, w.start, w.end, wide.start, wide.end);
    }
  }

  // ---- Representation: what one list of rows keeps of another ----------------------------

  /** `o` contains `s` whole, with a role at least as strong. */
  predicate Keeps(o: Spec, s: Spec) {
    SameFile(o.body, s.body) && Contains(o.body, s.body) && Rank(o.body.role) <= Rank(s.body.role)
  }

  /** `s` is where `o` takes its role from. */
  predicate RoleSource(o: Spec, s: Spec) {
    SameFile(o.body, s.body) && Contains(o.body, s.body) && o.body.role == s.body.role
  }

  predicate LineSource(o: Spec, s: Spec, line: int) { SameFile(o.body, s.body) && HasLine(s.body, line) }

  predicate SpanSource(o: Spec, s: Spec) { SameFile(o.body, s.body) && SameSpan(o.body, s.body) }

  ghost predicate KeepsAll(specs: seq<Spec>, out: seq<Spec>) {
    forall s :: s in specs ==> exists o :: o in out && Keeps(o, s)
  }

  ghost predicate RolesFrom(specs: seq<Spec>, out: seq<Spec>) {
    forall o :: o in out ==> exists s :: s in specs && RoleSource(o, s)
  }

  ghost predicate LinesFrom(specs: seq<Spec>, out: seq<Spec>) {
    forall o, line :: o in out && HasLine(o.body, line) ==> exists s :: s in specs && LineSource(o, s, line)
  }

  ghost predicate CapsOrInputs(bytes: Measure, specs: seq<Spec>, out: seq<Spec>) {
    forall o :: o in out && !Capped(bytes, o.body) ==> exists s :: s in specs && SpanSource(o, s)
  }

  ghost predicate Represents(bytes: Measure, specs: seq<Spec>, out: seq<Spec>) {
    KeepsAll(specs, out) && RolesFrom(specs, out) && LinesFrom(specs, out) && CapsOrInputs(bytes, specs, out)
  }

  lemma EachSourcesItself(s: Spec)
    ensures Keeps(s, s) && RoleSource(s, s) && SpanSource(s, s)
    ensures forall line :: HasLine(s.body, line) ==> LineSource(s, s, line)
  {}

  lemma KeepsSame(specs: seq<Spec>, same: seq<Spec>)
    requires forall x :: x in specs <==> x in same
    ensures KeepsAll(specs, same) && RolesFrom(specs, same)
  {
    forall s | s in specs ensures s in same && Keeps(s, s) && RoleSource(s, s) { EachSourcesItself(s); }
  }

  lemma LinesSame(specs: seq<Spec>, same: seq<Spec>)
    requires forall x :: x in specs <==> x in same
    ensures LinesFrom(specs, same)
  {
    forall o, line | o in same && HasLine(o.body, line) ensures o in specs && LineSource(o, o, line) {
      EachSourcesItself(o);
    }
  }

  lemma RepresentsSame(bytes: Measure, specs: seq<Spec>, same: seq<Spec>)
    requires forall x :: x in specs <==> x in same
    ensures Represents(bytes, specs, same)
  {
    KeepsSame(specs, same);
    LinesSame(specs, same);
    forall o | o in same ensures o in specs && SpanSource(o, o) { EachSourcesItself(o); }
  }

  lemma KeepsTransitive(a: seq<Spec>, b: seq<Spec>, c: seq<Spec>)
    requires KeepsAll(a, b) && KeepsAll(b, c)
    ensures KeepsAll(a, c)
  {
    forall s | s in a ensures exists o :: o in c && Keeps(o, s) {
      var m :| m in b && Keeps(m, s);
      var o :| o in c && Keeps(o, m);
      assert Keeps(o, s);
    }
  }

  lemma RolesTransitive(a: seq<Spec>, b: seq<Spec>, c: seq<Spec>)
    requires RolesFrom(a, b) && RolesFrom(b, c)
    ensures RolesFrom(a, c)
  {
    forall o | o in c ensures exists s :: s in a && RoleSource(o, s) {
      var m :| m in b && RoleSource(o, m);
      var s :| s in a && RoleSource(m, s);
      assert RoleSource(o, s);
    }
  }

  lemma LinesTransitive(a: seq<Spec>, b: seq<Spec>, c: seq<Spec>)
    requires LinesFrom(a, b) && LinesFrom(b, c)
    ensures LinesFrom(a, c)
  {
    forall o, line | o in c && HasLine(o.body, line) ensures exists s :: s in a && LineSource(o, s, line) {
      var m :| m in b && LineSource(o, m, line);
      var s :| s in a && LineSource(m, s, line);
      assert LineSource(o, s, line);
    }
  }

  lemma CappedBySpan(bytes: Measure, a: Window, b: Window)
    requires Monotone(bytes) && SameFile(a, b) && SameSpan(a, b) && a.start <= a.end
    ensures Capped(bytes, a) == Capped(bytes, b)
  {
    assert PartOf(a, b) && PartOf(b, a);
  }

  lemma CapsTransitive(bytes: Measure, a: seq<Spec>, b: seq<Spec>, c: seq<Spec>)
    requires Monotone(bytes) && ValidSpans(c)
    requires CapsOrInputs(bytes, a, b) && CapsOrInputs(bytes, b, c)
    ensures CapsOrInputs(bytes, a, c)
  {
    forall o | o in c && !Capped(bytes, o.body) ensures exists s :: s in a && SpanSource(o, s) {
      var m :| m in b && SpanSource(o, m);
      CappedBySpan(bytes, o.body, m.body);
      var s :| s in a && SpanSource(m, s);
      assert SpanSource(o, s);
    }
  }

  lemma RepresentsTransitive(bytes: Measure, a: seq<Spec>, b: seq<Spec>, c: seq<Spec>)
    requires Monotone(bytes) && ValidSpans(c)
    requires Represents(bytes, a, b) && Represents(bytes, b, c)
    ensures Represents(bytes, a, c)
  {
    KeepsTransitive(a, b, c);
    RolesTransitive(a, b, c);
    LinesTransitive(a, b, c);
    CapsTransitive(bytes, a, b, c);
  }

  lemma RepresentsConcat(bytes: Measure, a: seq<Spec>, b: seq<Spec>, c: seq<Spec>, d: seq<Spec>)
    requires Represents(bytes, a, b) && Represents(bytes, c, d)
    ensures Represents(bytes, a + c, b + d)
  {
    assert KeepsAll(a + c, b + d);
    assert RolesFrom(a + c, b + d);
    assert LinesFrom(a + c, b + d);
    assert CapsOrInputs(bytes, a + c, b + d);
  }

  // ---- One step and one fold over the rows of one file ------------------------------------

  ghost predicate OfFile(rows: seq<Spec>, f: Window) {
    forall x :: x in rows ==> SameFile(x.body, f) && 1 <= x.body.start <= x.body.end
  }

  ghost predicate Ascending(rows: seq<Spec>) {
    forall i, j :: 0 <= i < j < |rows| ==> rows[i].body.start <= rows[j].body.start
  }

  ghost predicate StartBy(rows: seq<Spec>, line: int) {
    forall x :: x in rows ==> x.body.start <= line
  }

  /** The row a merge leaves stands for both rows it absorbs. */
  lemma WidenRepresents(bytes: Measure, names: Naming, prior: Spec, s: Spec)
    requires Mergeable(bytes, prior.body, s.body) && SameFile(prior.body, s.body)
    requires Monotone(bytes)
    requires 1 <= prior.body.start <= s.body.start <= s.body.end && prior.body.start <= prior.body.end
    ensures Represents(bytes, [prior, s], [Widen(names, prior, s)])
  {
    var o := Widen(names, prior, s);
    assert Keeps(o, prior) && Keeps(o, s);
    assert RoleSource(o, prior) || RoleSource(o, s);
    assert LinesFrom([prior, s], [o]) by {
      forall line | HasLine(o.body, line) ensures exists x :: x in [prior, s] && LineSource(o, x, line) {
        assert LineSource(o, prior, line) || LineSource(o, s, line);
      }
    }
    if !SpanSource(o, prior) {
      CappedBySpan(bytes, Hull(prior.body, s.body), o.body);
    }
  }

  lemma SnocShape(front: seq<Spec>, x: Spec, f: Window)
    requires OfFile(front, f) && OfFile([x], f) && Ascending(front) && StartBy(front, x.body.start)
    ensures OfFile(front + [x], f) && Ascending(front + [x]) && StartBy(front + [x], x.body.start)
  {
    assert x in [x];
    assert forall i :: 0 <= i < |front| ==> front[i] in front;
  }

  lemma StepShape(bytes: Measure, names: Naming, merged: seq<Spec>, s: Spec, f: Window)
    requires OfFile(merged, f) && OfFile([s], f) && Ascending(merged) && StartBy(merged, s.body.start)
    ensures OfFile(Step(bytes, names, merged, s), f)
    ensures Ascending(Step(bytes, names, merged, s))
    ensures StartBy(Step(bytes, names, merged, s), s.body.start)
  {
    var n := |merged| - 1;
    assert s in [s];
    if merged != [] && merged[n].body.Of() == s.body.Of() && Mergeable(bytes, merged[n].body, s.body) {
      assert merged[n] in merged;
      assert StartBy(merged[..n], merged[n].body.start);
      SnocShape(merged[..n], Widen(names, merged[n], s), f);
    } else {
      SnocShape(merged, s, f);
    }
  }

  lemma MergeRepresents(bytes: Measure, names: Naming, front: seq<Spec>, prior: Spec, s: Spec)
    requires Mergeable(bytes, prior.body, s.body) && SameFile(prior.body, s.body)
    requires Monotone(bytes)
    requires 1 <= prior.body.start <= s.body.start <= s.body.end && prior.body.start <= prior.body.end
    ensures Represents(bytes, front + [prior] + [s], front + [Widen(names, prior, s)])
  {
    WidenRepresents(bytes, names, prior, s);
    RepresentsSame(bytes, front, front);
    RepresentsConcat(bytes, front, front, [prior, s], [Widen(names, prior, s)]);
    assert front + [prior] + [s] == front + [prior, s];
  }

  lemma StepRepresents(bytes: Measure, names: Naming, merged: seq<Spec>, s: Spec, f: Window)
    requires Monotone(bytes)
    requires OfFile(merged, f) && OfFile([s], f) && StartBy(merged, s.body.start)
    ensures Represents(bytes, merged + [s], Step(bytes, names, merged, s))
  {
    var n := |merged| - 1;
    assert s in [s];
    if merged != [] && merged[n].body.Of() == s.body.Of() && Mergeable(bytes, merged[n].body, s.body) {
      assert merged[n] in merged;
      assert merged == merged[..n] + [merged[n]];
      MergeRepresents(bytes, names, merged[..n], merged[n], s);
    } else {
      RepresentsSame(bytes, merged + [s], merged + [s]);
    }
  }

  ghost predicate Ready(merged: seq<Spec>, rows: seq<Spec>, f: Window) {
    && OfFile(merged, f) && OfFile(rows, f) && Ascending(merged) && Ascending(rows)
    && (rows != [] ==> StartBy(merged, rows[0].body.start))
  }

  lemma StepReady(bytes: Measure, names: Naming, merged: seq<Spec>, rows: seq<Spec>, f: Window)
    requires Ready(merged, rows, f) && rows != []
    ensures OfFile([rows[0]], f) && StartBy(merged, rows[0].body.start)
    ensures Ready(Step(bytes, names, merged, rows[0]), rows[1..], f)
  {
    var s, rest := rows[0], rows[1..];
    assert s in rows;
    StepShape(bytes, names, merged, s, f);
    if rest != [] {
      assert rest[0] == rows[1];
      assert s.body.start <= rest[0].body.start;
    }
  }

  lemma {:induction false} FoldOfFile(bytes: Measure, names: Naming, merged: seq<Spec>, rows: seq<Spec>, f: Window)
    requires Ready(merged, rows, f)
    ensures OfFile(Fold(bytes, names, merged, rows), f)
    decreases |rows|
  {
    if rows != [] {
      StepReady(bytes, names, merged, rows, f);
      FoldOfFile(bytes, names, Step(bytes, names, merged, rows[0]), rows[1..], f);
    }
  }

  lemma {:induction false} FoldRepresents(bytes: Measure, names: Naming, merged: seq<Spec>, rows: seq<Spec>, f: Window)
    requires Monotone(bytes) && Ready(merged, rows, f)
    ensures Represents(bytes, merged + rows, Fold(bytes, names, merged, rows))
    decreases |rows|
  {
    if rows == [] {
      RepresentsSame(bytes, merged + rows, merged);
    } else {
      var s, rest := rows[0], rows[1..];
      var next := Step(bytes, names, merged, s);
      StepReady(bytes, names, merged, rows, f);
      StepRepresents(bytes, names, merged, s, f);
      FoldOfFile(bytes, names, next, rest, f);
      FoldRepresents(bytes, names, next, rest, f);
      StepThenRest(bytes, merged, rows, next, Fold(bytes, names, merged, rows), f);
    }
  }

  lemma StepThenRest(bytes: Measure, merged: seq<Spec>, rows: seq<Spec>, next: seq<Spec>, out: seq<Spec>, f: Window)
    requires Monotone(bytes) && OfFile(out, f) && rows != []
    requires Represents(bytes, merged + [rows[0]], next) && Represents(bytes, next + rows[1..], out)
    ensures Represents(bytes, merged + rows, out)
  {
    var s, rest := rows[0], rows[1..];
    RepresentsSame(bytes, rest, rest);
    RepresentsConcat(bytes, merged + [s], next, rest, rest);
    assert merged + rows == merged + [s] + rest;
    RepresentsTransitive(bytes, merged + rows, next + rest, out);
  }

  // ---- Normal form ------------------------------------------------------------------------

  /** Strictly before in (start_line, end_line). */
  predicate Before(a: Window, b: Window) { a.start < b.start || (a.start == b.start && a.end < b.end) }

  ghost predicate NormalForm(bytes: Measure, rows: seq<Spec>) {
    && (forall i, j :: 0 <= i < j < |rows| ==> Before(rows[i].body, rows[j].body))
    && (forall i :: 0 < i < |rows| ==> !Mergeable(bytes, rows[i - 1].body, rows[i].body))
  }

  /** Rows in normal form are left alone. */
  lemma {:induction false} FoldFixesNormalForm(bytes: Measure, names: Naming, rows: seq<Spec>, i: nat)
    requires NormalForm(bytes, rows) && i <= |rows|
    ensures Fold(bytes, names, rows[..i], rows[i..]) == rows
    decreases |rows| - i
  {
    if i < |rows| {
      assert Step(bytes, names, rows[..i], rows[i]) == rows[..i + 1];
      assert rows[i..][1..] == rows[i + 1..];
      FoldFixesNormalForm(bytes, names, rows, i + 1);
    } else {
      assert rows[..i] == rows;
    }
  }

  /** Widening the later of two unmergeable rows keeps them unmergeable. */
  lemma WiderStaysApart(bytes: Measure, prior: Window, w: Window, wide: Window)
    requires Monotone(bytes) && SameFile(prior, w) && SameFile(w, wide)
    requires prior.start <= w.start == wide.start <= w.end <= wide.end
    requires Before(prior, w) && !Mergeable(bytes, prior, w)
    ensures Before(prior, wide) && !Mergeable(bytes, prior, wide)
  {
    assert PartOf(Hull(prior, w), Hull(prior, wide));
    assert Capped(bytes, Hull(prior, wide)) ==> Capped(bytes, Hull(prior, w));
  }

  /** A row that is capped, or exactly an earlier spec, absorbs what it contains. */
  lemma PushedComesAfter(bytes: Measure, last: Window, s: Window, before: Window)
    requires last.start <= last.end && last.start <= s.start
    requires Capped(bytes, last) || (SameSpan(last, before) && BodyLe(before, s))
    requires !Mergeable(bytes, last, s)
    ensures Before(last, s)
  {
    assert last.start == s.start && s.end <= last.end ==> Hull(last, s) == last;
  }

  lemma StepNormal(bytes: Measure, names: Naming, done: seq<Spec>, merged: seq<Spec>, s: Spec, f: Window)
    requires Monotone(bytes) && NormalForm(bytes, merged)
    requires OfFile(merged, f) && OfFile([s], f) && StartBy(merged, s.body.start)
    requires CapsOrInputs(bytes, done, merged)
    requires forall d :: d in done ==> RowLe(d, s)
    ensures NormalForm(bytes, Step(bytes, names, merged, s))
  {
    var n := |merged|;
    assert s in [s];
    if n > 0 {
      var last := merged[n - 1];
      assert last in merged;
      if Mergeable(bytes, last.body, s.body) {
        WidenNormal(bytes, names, merged, s, f);
      } else {
        if Capped(bytes, last.body) {
          PushedComesAfter(bytes, last.body, s.body, s.body);
        } else {
          var d :| d in done && SpanSource(last, d);
          PushedComesAfter(bytes, last.body, s.body, d.body);
        }
        PushNormal(bytes, merged, s);
      }
    }
  }

  lemma WidenNormal(bytes: Measure, names: Naming, merged: seq<Spec>, s: Spec, f: Window)
    requires Monotone(bytes) && NormalForm(bytes, merged) && merged != []
    requires OfFile(merged, f) && OfFile([s], f) && StartBy(merged, s.body.start)
    ensures NormalForm(bytes, merged[..|merged| - 1] + [Widen(names, merged[|merged| - 1], s)])
  {
    var n := |merged|;
    var last := merged[n - 1];
    assert last in merged && s in [s];
    if n > 1 {
      assert merged[n - 2] in merged;
      WiderStaysApart(bytes, merged[n - 2].body, last.body, Widen(names, last, s).body);
    }
  }

  lemma PushNormal(bytes: Measure, merged: seq<Spec>, s: Spec)
    requires NormalForm(bytes, merged) && merged != []
    requires Before(merged[|merged| - 1].body, s.body) && !Mergeable(bytes, merged[|merged| - 1].body, s.body)
    ensures NormalForm(bytes, merged + [s])
  {}

  lemma StepCaps(bytes: Measure, names: Naming, done: seq<Spec>, merged: seq<Spec>, s: Spec, f: Window)
    requires Monotone(bytes) && CapsOrInputs(bytes, done, merged)
    requires OfFile(merged, f) && OfFile([s], f) && Ascending(merged) && StartBy(merged, s.body.start)
    ensures CapsOrInputs(bytes, done + [s], Step(bytes, names, merged, s))
  {
    StepRepresents(bytes, names, merged, s, f);
    StepShape(bytes, names, merged, s, f);
    CapsExtend(bytes, done, merged, s);
    CapsTransitive(bytes, done + [s], merged + [s], Step(bytes, names, merged, s));
  }

  lemma CapsExtend(bytes: Measure, done: seq<Spec>, merged: seq<Spec>, s: Spec)
    requires CapsOrInputs(bytes, done, merged)
    ensures CapsOrInputs(bytes, done + [s], merged + [s])
  {
    EachSourcesItself(s);
    forall o | o in merged + [s] && !Capped(bytes, o.body) ensures exists d :: d in done + [s] && SpanSource(o, d) {
      if o in merged {
        var d :| d in done && SpanSource(o, d);
        assert d in done + [s];
      } else {
        assert s in done + [s];
      }
    }
  }

  ghost predicate AllLe(done: seq<Spec>, rows: seq<Spec>) {
    forall d, s :: d in done && s in rows ==> RowLe(d, s)
  }

  lemma {:induction false} FoldNormal(bytes: Measure, names: Naming, done: seq<Spec>, merged: seq<Spec>, rows: seq<Spec>, f: Window)
    requires Monotone(bytes) && Ready(merged, rows, f)
    requires NormalForm(bytes, merged) && CapsOrInputs(bytes, done, merged)
    requires AllLe(done, rows) && Sorted(rows, RowLe)
    ensures NormalForm(bytes, Fold(bytes, names, merged, rows))
    decreases |rows|
  {
    if rows != [] {
      var s, rest := rows[0], rows[1..];
      assert s in rows;
      StepReady(bytes, names, merged, rows, f);
      StepNormal(bytes, names, done, merged, s, f);
      StepCaps(bytes, names, done, merged, s, f);
      assert AllLe(done + [s], rest) by {
        forall d, t | d in done + [s] && t in rest ensures RowLe(d, t) {
          var j :| 0 <= j < |rest| && rest[j] == t;
          assert RowLe(rows[0], rows[j + 1]);
          assert t in rows;
        }
      }
      FoldNormal(bytes, names, done + [s], Step(bytes, names, merged, s), rest, f);
    }
  }

  /** The rows of one source, sorted: of one file when no two specs name different blobs. */
  lemma SortedRowsShape(specs: seq<Spec>, k: Source) returns (f: Window)
    requires ValidSpans(specs) && SameBlobs(specs)
    ensures OfFile(Sort(Rows(specs, k), RowLe), f)
    ensures Sorted(Sort(Rows(specs, k), RowLe), RowLe) && Ascending(Sort(Rows(specs, k), RowLe))
    ensures forall x :: x in Sort(Rows(specs, k), RowLe) <==> x in Rows(specs, k)
  {
    var rows := Sort(Rows(specs, k), RowLe);
    OrdersAreTotal();
    SortSpec(Rows(specs, k), RowLe);
    SortMembers(Rows(specs, k), RowLe);
    if rows == [] {
      f := Window(Changed, Base, "", 1, 1, "");
    } else {
      assert rows[0] in rows;
      f := rows[0].body;
      forall x | x in rows ensures SameFile(x.body, f) && 1 <= x.body.start <= x.body.end {
        assert x in specs && rows[0] in specs;
        assert x.body.Of() == rows[0].body.Of();
      }
    }
  }

  /** One source's rows after the merge. */
  lemma GroupSpec(bytes: Measure, names: Naming, specs: seq<Spec>, k: Source)
    requires Monotone(bytes) && ValidSpans(specs) && SameBlobs(specs)
    ensures NormalForm(bytes, Group(bytes, names, specs, k))
    ensures Represents(bytes, Rows(specs, k), Group(bytes, names, specs, k))
    ensures ValidSpans(Group(bytes, names, specs, k))
  {
    var rows := Sort(Rows(specs, k), RowLe);
    var f := SortedRowsShape(specs, k);
    assert [] + rows == rows;
    FoldOfFile(bytes, names, [], rows, f);
    FoldRepresents(bytes, names, [], rows, f);
    FoldNormal(bytes, names, [], [], rows, f);
    RepresentsSame(bytes, Rows(specs, k), rows);
    RepresentsTransitive(bytes, Rows(specs, k), rows, Group(bytes, names, specs, k));
  }

  // ---- The whole plan, source by source ---------------------------------------------------

  lemma NoConflict(specs: seq<Spec>)
    ensures !Conflict(specs) <==> SameBlobs(specs)
  {
    if !Conflict(specs) {
      forall s, t | s in specs && t in specs && s.body.Of() == t.body.Of() ensures s.body.blob == t.body.blob {
        var i :| 0 <= i < |specs| && specs[i] == s;
        var j :| 0 <= j < |specs| && specs[j] == t;
        assert i < j || j < i || i == j;
      }
    }
    if Conflict(specs) {
      var i, j :| 0 <= i < j < |specs| && specs[i].body.Of() == specs[j].body.Of() && specs[i].body.blob != specs[j].body.blob;
      assert specs[i] in specs && specs[j] in specs;
    }
  }

  lemma {:induction false} GroupsCount(bytes: Measure, names: Naming, specs: seq<Spec>, keys: seq<Source>, x: Spec)
    requires Distinct(keys)
    ensures multiset(Groups(bytes, names, specs, keys))[x] ==
            if x.body.Of() in keys then multiset(Group(bytes, names, specs, x.body.Of()))[x] else 0
  {
    if keys != [] {
      var n := |keys| - 1;
      var front, last := Groups(bytes, names, specs, keys[..n]), Group(bytes, names, specs, keys[n]);
      GroupsCount(bytes, names, specs, keys[..n], x);
      GroupKeepsSource(bytes, names, specs, keys[n]);
      assert keys[n] !in keys[..n];
      assert multiset(front + last)[x] == multiset(front)[x] + multiset(last)[x];
      if x.body.Of() != keys[n] {
        assert x !in last;
        assert multiset(last)[x] == 0;
      }
    }
  }

  lemma PlanCount(bytes: Measure, names: Naming, specs: seq<Spec>, x: Spec)
    ensures multiset(Groups(bytes, names, specs, Keys(specs)))[x] == multiset(Group(bytes, names, specs, x.body.Of()))[x]
  {
    var k := x.body.Of();
    GroupsCount(bytes, names, specs, Keys(specs), x);
    if k !in Keys(specs) {
      assert Rows(specs, k) == [] && Group(bytes, names, specs, k) == [];
    }
  }

  lemma {:induction false} RowsSorted(out: seq<Spec>, k: Source)
    requires Sorted(out, OutLe)
    ensures Sorted(Rows(out, k), RowLe)
  {
    if out != [] {
      var n := |out| - 1;
      RowsSorted(out[..n], k);
      assert out == out[..n] + [out[n]];
      var front := Rows(out[..n], k);
      forall i | 0 <= i < |front| && out[n].body.Of() == k ensures RowLe(front[i], out[n]) {
        assert front[i] in front;
        assert front[i] in out[..n];
        var p :| 0 <= p < n && out[p] == front[i];
        assert OutLe(out[p], out[n]);
      }
    }
  }

  lemma NormalFormIsKeyed(bytes: Measure, rows: seq<Spec>)
    requires NormalForm(bytes, rows)
    ensures Sorted(rows, RowLe) && KeyedBy(rows, RowLe)
  {
    forall x, y | x in rows && y in rows && RowLe(x, y) && RowLe(y, x) ensures x == y {
      var i :| 0 <= i < |rows| && rows[i] == x;
      var j :| 0 <= j < |rows| && rows[j] == y;
      assert i < j || j < i || i == j;
    }
  }

  lemma GroupCountInPlan(bytes: Measure, names: Naming, specs: seq<Spec>, k: Source)
    requires Union(bytes, names, specs).Success?
    ensures multiset(Rows(Union(bytes, names, specs).value, k)) == multiset(Group(bytes, names, specs, k))
    ensures Sorted(Union(bytes, names, specs).value, OutLe)
  {
    var groups, out := Groups(bytes, names, specs, Keys(specs)), Union(bytes, names, specs).value;
    OrdersAreTotal();
    SortSpec(groups, OutLe);
    GroupKeepsSource(bytes, names, specs, k);
    forall x: Spec ensures multiset(Rows(out, k))[x] == multiset(Group(bytes, names, specs, k))[x] {
      RowsCount(out, x);
      PlanCount(bytes, names, specs, x);
      if x.body.Of() != k { assert x !in Rows(out, k) && x !in Group(bytes, names, specs, k); }
    }
  }

  /** The rows of the plan for one source are that source's merged rows. */
  lemma UnionGroup(bytes: Measure, names: Naming, specs: seq<Spec>, k: Source)
    requires Monotone(bytes) && ValidSpans(specs) && Union(bytes, names, specs).Success?
    ensures Rows(Union(bytes, names, specs).value, k) == Group(bytes, names, specs, k)
  {
    var rows, group := Rows(Union(bytes, names, specs).value, k), Group(bytes, names, specs, k);
    NoConflict(specs);
    GroupSpec(bytes, names, specs, k);
    NormalFormIsKeyed(bytes, group);
    GroupCountInPlan(bytes, names, specs, k);
    RowsSorted(Union(bytes, names, specs).value, k);
    OrdersAreTotal();
    SortedIsUnique(group, rows, RowLe);
  }

  lemma PlanIsKeyed(bytes: Measure, a: seq<Spec>)
    requires forall k :: NormalForm(bytes, Rows(a, k))
    ensures KeyedBy(a, OutLe)
  {
    TextLeIsTotalPreorder();
    forall x, y | x in a && y in a && OutLe(x, y) && OutLe(y, x) ensures x == y {
      var k := x.body.Of();
      assert y.body.Of() == k;
      NormalFormIsKeyed(bytes, Rows(a, k));
      assert x in Rows(a, k) && y in Rows(a, k);
    }
  }

  /** A plan is determined by its rows, source by source. */
  lemma PlanIsItsGroups(bytes: Measure, a: seq<Spec>, b: seq<Spec>)
    requires Sorted(a, OutLe) && Sorted(b, OutLe)
    requires forall k :: Rows(a, k) == Rows(b, k)
    requires forall k :: NormalForm(bytes, Rows(a, k))
    ensures a == b
  {
    forall x: Spec ensures multiset(a)[x] == multiset(b)[x] {
      RowsCount(a, x);
      RowsCount(b, x);
    }
    PlanIsKeyed(bytes, a);
    OrdersAreTotal();
    SortedIsUnique(a, b, OutLe);
  }

  // ---- Main results -----------------------------------------------------------------------

  lemma RepresentsByGroups(bytes: Measure, specs: seq<Spec>, out: seq<Spec>)
    requires forall k :: Represents(bytes, Rows(specs, k), Rows(out, k))
    ensures Represents(bytes, specs, out)
  {
    forall s | s in specs ensures exists o :: o in out && Keeps(o, s) {
      assert KeepsAll(Rows(specs, s.body.Of()), Rows(out, s.body.Of()));
    }
    forall o | o in out ensures exists s :: s in specs && RoleSource(o, s) {
      assert RolesFrom(Rows(specs, o.body.Of()), Rows(out, o.body.Of()));
    }
    forall o, line | o in out && HasLine(o.body, line) ensures exists s :: s in specs && LineSource(o, s, line) {
      assert LinesFrom(Rows(specs, o.body.Of()), Rows(out, o.body.Of()));
    }
    forall o | o in out && !Capped(bytes, o.body) ensures exists s :: s in specs && SpanSource(o, s) {
      assert CapsOrInputs(bytes, Rows(specs, o.body.Of()), Rows(out, o.body.Of()));
    }
  }

  /** The normal form: every input window is kept whole inside one row of a role at least as
      strong; every line of every row is a line of an input; every role is the role of an
      input inside the row; and a row that is not an input span is within both limits. */
  lemma UnionRepresents(bytes: Measure, names: Naming, specs: seq<Spec>)
    requires Monotone(bytes) && ValidSpans(specs)
    ensures Union(bytes, names, specs).Success? <==> SameBlobs(specs)
    ensures Union(bytes, names, specs).Success? ==> Represents(bytes, specs, Union(bytes, names, specs).value)
  {
    NoConflict(specs);
    if Union(bytes, names, specs).Success? {
      var out := Union(bytes, names, specs).value;
      forall k ensures Represents(bytes, Rows(specs, k), Rows(out, k)) {
        GroupSpec(bytes, names, specs, k);
        UnionGroup(bytes, names, specs, k);
      }
      RepresentsByGroups(bytes, specs, out);
    }
  }

  ghost predicate Covers(specs: seq<Spec>, k: Source, line: int) {
    exists s :: s in specs && s.body.Of() == k && HasLine(s.body, line)
  }

  lemma CoversKept(specs: seq<Spec>, out: seq<Spec>, k: Source, line: int)
    requires KeepsAll(specs, out) && Covers(specs, k, line)
    ensures Covers(out, k, line)
  {
    var s :| s in specs && s.body.Of() == k && HasLine(s.body, line);
    var o :| o in out && Keeps(o, s);
    assert o.body.Of() == k && HasLine(o.body, line);
  }

  lemma CoversSourced(specs: seq<Spec>, out: seq<Spec>, k: Source, line: int)
    requires LinesFrom(specs, out) && Covers(out, k, line)
    ensures Covers(specs, k, line)
  {
    var o :| o in out && o.body.Of() == k && HasLine(o.body, line);
    var s :| s in specs && LineSource(o, s, line);
    assert s.body.Of() == k && HasLine(s.body, line);
  }

  /** The plan covers exactly the input lines. */
  lemma UnionCoversExactly(bytes: Measure, names: Naming, specs: seq<Spec>, k: Source, line: int)
    requires Monotone(bytes) && ValidSpans(specs) && Union(bytes, names, specs).Success?
    ensures Covers(Union(bytes, names, specs).value, k, line) <==> Covers(specs, k, line)
  {
    var out := Union(bytes, names, specs).value;
    UnionRepresents(bytes, names, specs);
    if Covers(specs, k, line) { CoversKept(specs, out, k, line); }
    if Covers(out, k, line) { CoversSourced(specs, out, k, line); }
  }

  lemma BlobsFromRoles(specs: seq<Spec>, out: seq<Spec>)
    requires RolesFrom(specs, out) && SameBlobs(specs)
    ensures SameBlobs(out)
  {
    forall o, p | o in out && p in out && o.body.Of() == p.body.Of() ensures o.body.blob == p.body.blob {
      var s :| s in specs && RoleSource(o, s);
      var t :| t in specs && RoleSource(p, t);
      assert s.body.Of() == t.body.Of();
    }
  }

  lemma PlanIsValid(bytes: Measure, names: Naming, specs: seq<Spec>)
    requires Monotone(bytes) && ValidSpans(specs) && Union(bytes, names, specs).Success?
    ensures ValidSpans(Union(bytes, names, specs).value)
    ensures SameBlobs(Union(bytes, names, specs).value)
  {
    var out := Union(bytes, names, specs).value;
    UnionRepresents(bytes, names, specs);
    BlobsFromRoles(specs, out);
    forall o | o in out ensures 1 <= o.body.start <= o.body.end {
      GroupSpec(bytes, names, specs, o.body.Of());
      UnionGroup(bytes, names, specs, o.body.Of());
      assert o in Rows(out, o.body.Of());
    }
  }

  lemma GroupOfPlan(bytes: Measure, names: Naming, again: Naming, specs: seq<Spec>, k: Source)
    requires Monotone(bytes) && ValidSpans(specs) && Union(bytes, names, specs).Success?
    ensures NormalForm(bytes, Rows(Union(bytes, names, specs).value, k))
    ensures Group(bytes, again, Union(bytes, names, specs).value, k) == Rows(Union(bytes, names, specs).value, k)
  {
    var rows := Rows(Union(bytes, names, specs).value, k);
    NoConflict(specs);
    UnionGroup(bytes, names, specs, k);
    GroupSpec(bytes, names, specs, k);
    NormalFormIsKeyed(bytes, rows);
    OrdersAreTotal();
    SortFixesSorted(rows, RowLe);
    FoldFixesNormalForm(bytes, again, rows, 0);
    assert rows[..0] == [] && rows[0..] == rows;
  }

  /** Merging the plan again changes nothing, for any way of naming the widened rows. */
  lemma UnionIsIdempotent(bytes: Measure, names: Naming, again: Naming, specs: seq<Spec>)
    requires Monotone(bytes) && ValidSpans(specs) && Union(bytes, names, specs).Success?
    ensures Union(bytes, again, Union(bytes, names, specs).value) == Union(bytes, names, specs)
  {
    var out := Union(bytes, names, specs).value;
    PlanIsValid(bytes, names, specs);
    NoConflict(out);
    var twice := Union(bytes, again, out).value;
    forall k ensures Rows(out, k) == Rows(twice, k) && NormalForm(bytes, Rows(out, k)) {
      GroupOfPlan(bytes, names, again, specs, k);
      UnionGroup(bytes, again, out, k);
      GroupCountInPlan(bytes, names, specs, k);
      GroupCountInPlan(bytes, again, out, k);
    }
    GroupCountInPlan(bytes, names, specs, Source(Base, ""));
    GroupCountInPlan(bytes, again, out, Source(Base, ""));
    PlanIsItsGroups(bytes, out, twice);
  }
}
