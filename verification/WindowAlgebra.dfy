/** The source plan: capped greedy union of line windows (evaluator/pipeline.py `_union_specs`). */
module WindowAlgebra {
  import opened Wrappers
  import opened Ordering
  import opened SourcePayload

  const MAX_SOURCE_BYTES := 65_536
  const MAX_WINDOW_LINES := 400
  const MAX_WINDOW_BYTES := 262_144

  datatype Role = Changed | Context | Support
  datatype Side = Base | Head
  datatype Source = Source(side: Side, path: string)

  /** The identity body of a source request. */
  datatype Window = Window(role: Role, side: Side, path: string, start: int, end: int, blob: string)
  {
    function Of(): Source { Source(side, path) }
  }

  datatype Spec = Spec(requiredId: string, body: Window)

  /** `blob_for`: the bytes at a path when the asserted object id is the one there. */
  type Blobs = (Side, string, string) -> Option<seq<Byte>>

  /** `stable_id("source-request", body)`. */
  type Naming = Window -> string

  /** The `union_byte_length` callback: bytes of a candidate, None when unavailable. */
  type Measure = Window -> Option<nat>

  datatype PlanError = SharedCoreSourceConflict

  function Rank(r: Role): nat {
    match r case Changed => 0 case Context => 1 case Support => 2
  }

  /** Sort key of the merge: (start_line, end_line, role_order). */
  predicate BodyLe(a: Window, b: Window) {
    a.start < b.start || (a.start == b.start && (a.end < b.end || (a.end == b.end && Rank(a.role) <= Rank(b.role))))
  }

  predicate RowLe(a: Spec, b: Spec) { BodyLe(a.body, b.body) }

  /** Sort key of the result: (path, side != "base", start_line, end_line, role). */
  predicate OutLe(a: Spec, b: Spec) {
    if a.body.path != b.body.path then TextLe(a.body.path, b.body.path)
    else if a.body.side != b.body.side then a.body.side == Base
    else RowLe(a, b)
  }

  /** Bytes a window admits: None when the blob or the excerpt is unavailable. */
  function ByteLength(blobs: Blobs, w: Window): Option<nat> {
    match blobs(w.side, w.path, w.blob)
    case None => None
    case Some(file) =>
      match Excerpt(file, w.start, w.end)
      case Payload(bytes) => Some(|bytes|)
      case Obstructed(_) => None
  }

  function Hull(a: Window, b: Window): Window {
    a.(start := Min(a.start, b.start), end := Max(a.end, b.end))
  }

  predicate SameSpan(a: Window, b: Window) { a.start == b.start && a.end == b.end }

  predicate Capped(bytes: Measure, w: Window) {
    w.end - w.start + 1 <= MAX_WINDOW_LINES && bytes(w).Some? && bytes(w).value <= MAX_WINDOW_BYTES
  }

  predicate Mergeable(bytes: Measure, prior: Window, w: Window) {
    w.start <= prior.end + 1 && (SameSpan(w, prior) || Capped(bytes, Hull(prior, w)))
  }

  function Stronger(a: Role, b: Role): Role { if Rank(b) < Rank(a) then b else a }

  /** The prior row widened in place, and renamed after its new body. */
  function Widen(names: Naming, prior: Spec, s: Spec): Spec {
    var body := prior.body.(end := Max(prior.body.end, s.body.end), role := Stronger(prior.body.role, s.body.role));
    Spec(names(body), body)
  }

  function Step(bytes: Measure, names: Naming, merged: seq<Spec>, s: Spec): (r: seq<Spec>)
    ensures r != []
  {
    var n := |merged|;
    if n > 0 && merged[n - 1].body.Of() == s.body.Of() && Mergeable(bytes, merged[n - 1].body, s.body)
    then merged[..n - 1] + [Widen(names, merged[n - 1], s)]
    else merged + [s]
  }

  function Fold(bytes: Measure, names: Naming, merged: seq<Spec>, rows: seq<Spec>): seq<Spec>
    decreases |rows|
  {
    if rows == [] then merged else Fold(bytes, names, Step(bytes, names, merged, rows[0]), rows[1..])
  }

  /** The specs of one source, in input order: a value of `by_source`. */
  function Rows(specs: seq<Spec>, k: Source): (r: seq<Spec>)
    ensures forall x :: x in r <==> x in specs && x.body.Of() == k
  {
    if specs == [] then [] else
    var n := |specs| - 1;
    assert specs == specs[..n] + [specs[n]];
    Rows(specs[..n], k) + (if specs[n].body.Of() == k then [specs[n]] else [])
  }

  /** The keys of `by_source`, in order of first insertion. */
  function Keys(specs: seq<Spec>): (r: seq<Source>)
    ensures Distinct(r)
    ensures forall k :: k in r <==> Rows(specs, k) != []
  {
    if specs == [] then [] else
    var n := |specs| - 1;
    var front := Keys(specs[..n]);
    front + (if specs[n].body.Of() in front then [] else [specs[n].body.Of()])
  }

  /** Two specs name different blobs for one source. */
  predicate Conflict(specs: seq<Spec>) {
    exists i, j :: 0 <= i < j < |specs| && specs[i].body.Of() == specs[j].body.Of() && specs[i].body.blob != specs[j].body.blob
  }

  function Group(bytes: Measure, names: Naming, specs: seq<Spec>, k: Source): seq<Spec> {
    Fold(bytes, names, [], Sort(Rows(specs, k), RowLe))
  }

  function Groups(bytes: Measure, names: Naming, specs: seq<Spec>, keys: seq<Source>): seq<Spec> {
    if keys == [] then [] else
    var n := |keys| - 1;
    Groups(bytes, names, specs, keys[..n]) + Group(bytes, names, specs, keys[n])
  }

  function Union(bytes: Measure, names: Naming, specs: seq<Spec>): Result<seq<Spec>, PlanError> {
    if Conflict(specs) then Failure(SharedCoreSourceConflict)
    else Success(Sort(Groups(bytes, names, specs, Keys(specs)), OutLe))
  }

  // ---- Facts about the orders and the grouping ------------------------------------------

  lemma OrdersAreTotal()
    ensures TotalPreorder(RowLe) && TotalPreorder(OutLe)
  {
    TextLeIsTotalPreorder();
  }

  lemma {:induction false} RowsCount(specs: seq<Spec>, x: Spec)
    ensures multiset(Rows(specs, x.body.Of()))[x] == multiset(specs)[x]
  {
    if specs != [] {
      var n := |specs| - 1;
      RowsCount(specs[..n], x);
      assert specs == specs[..n] + [specs[n]];
    }
  }

  lemma RowsMultiset(a: seq<Spec>, b: seq<Spec>, k: Source)
    requires multiset(a) == multiset(b)
    ensures multiset(Rows(a, k)) == multiset(Rows(b, k))
  {
    forall x: Spec ensures multiset(Rows(a, k))[x] == multiset(Rows(b, k))[x] {
      RowsCount(a, x);
      RowsCount(b, x);
      if x.body.Of() != k {
        assert x !in Rows(a, k) && x !in Rows(b, k);
      }
    }
  }

  lemma {:induction false} FoldKeepsSource(bytes: Measure, names: Naming, merged: seq<Spec>, rows: seq<Spec>, k: Source)
    requires forall x :: x in merged ==> x.body.Of() == k
    requires forall x :: x in rows ==> x.body.Of() == k
    ensures forall x :: x in Fold(bytes, names, merged, rows) ==> x.body.Of() == k
    decreases |rows|
  {
    if rows != [] {
      FoldKeepsSource(bytes, names, Step(bytes, names, merged, rows[0]), rows[1..], k);
    }
  }

  lemma GroupKeepsSource(bytes: Measure, names: Naming, specs: seq<Spec>, k: Source)
    ensures forall x :: x in Group(bytes, names, specs, k) ==> x.body.Of() == k
  {
    OrdersAreTotal();
    SortMembers(Rows(specs, k), RowLe);
    FoldKeepsSource(bytes, names, [], Sort(Rows(specs, k), RowLe), k);
  }

  /** A source never merges into the rows of another one. */
  lemma {:induction false} FoldAfterOthers(bytes: Measure, names: Naming, others: seq<Spec>, merged: seq<Spec>, rows: seq<Spec>, k: Source)
    requires others == [] || others[|others| - 1].body.Of() != k
    requires forall x :: x in rows ==> x.body.Of() == k
    ensures Fold(bytes, names, others + merged, rows) == others + Fold(bytes, names, merged, rows)
    decreases |rows|
  {
    if rows != [] {
      var s := rows[0];
      assert Step(bytes, names, others + merged, s) == others + Step(bytes, names, merged, s);
      FoldAfterOthers(bytes, names, others, Step(bytes, names, merged, s), rows[1..], k);
    }
  }

  lemma {:induction false} GroupsMembers(bytes: Measure, names: Naming, specs: seq<Spec>, keys: seq<Source>)
    ensures forall x :: x in Groups(bytes, names, specs, keys) ==> x.body.Of() in keys
  {
    if keys != [] {
      var n := |keys| - 1;
      GroupsMembers(bytes, names, specs, keys[..n]);
      GroupKeepsSource(bytes, names, specs, keys[n]);
    }
  }

  lemma GroupsStep(bytes: Measure, names: Naming, specs: seq<Spec>, keys: seq<Source>, i: nat)
    requires i < |keys| && Distinct(keys)
    ensures Fold(bytes, names, Groups(bytes, names, specs, keys[..i]), Sort(Rows(specs, keys[i]), RowLe))
            == Groups(bytes, names, specs, keys[..i + 1])
  {
    var k, others := keys[i], Groups(bytes, names, specs, keys[..i]);
    OrdersAreTotal();
    SortMembers(Rows(specs, k), RowLe);
    GroupsMembers(bytes, names, specs, keys[..i]);
    assert k !in keys[..i];
    FoldAfterOthers(bytes, names, others, [], Sort(Rows(specs, k), RowLe), k);
    assert others + [] == others;
    assert keys[..i + 1][..i] == keys[..i];
  }

  lemma FoldStep(bytes: Measure, names: Naming, merged: seq<Spec>, rows: seq<Spec>, j: nat)
    requires j < |rows|
    ensures Fold(bytes, names, merged, rows[j..]) == Fold(bytes, names, Step(bytes, names, merged, rows[j]), rows[j + 1..])
  {
    assert rows[j..][1..] == rows[j + 1..];
  }

  lemma ConflictGrows(specs: seq<Spec>, n: nat)
    requires n <= |specs| && Conflict(specs[..n])
    ensures Conflict(specs)
  {
    var i, j :| 0 <= i < j < n && specs[..n][i].body.Of() == specs[..n][j].body.Of() && specs[..n][i].body.blob != specs[..n][j].body.blob;
    assert specs[i].body.Of() == specs[j].body.Of() && specs[i].body.blob != specs[j].body.blob;
  }

  lemma ConflictOneMore(front: seq<Spec>, s: Spec)
    requires !Conflict(front)
    ensures Conflict(front + [s]) <==> exists r :: r in Rows(front, s.body.Of()) && r.body.blob != s.body.blob
  {
    var now, n, k := front + [s], |front|, s.body.Of();
    if Conflict(now) {
      var p, q :| 0 <= p < q < |now| && now[p].body.Of() == now[q].body.Of() && now[p].body.blob != now[q].body.blob;
      ConflictAtEnd(front, now, p, q);
      assert front[p] in Rows(front, k);
    }
    if r :| r in Rows(front, k) && r.body.blob != s.body.blob {
      var p :| 0 <= p < n && front[p] == r;
      assert now[p] == r && now[n] == s;
    }
  }

  lemma ConflictAtEnd(front: seq<Spec>, now: seq<Spec>, p: nat, q: nat)
    requires !Conflict(front) && |now| == |front| + 1 && now[..|front|] == front
    requires p < q < |now| && now[p].body.Of() == now[q].body.Of() && now[p].body.blob != now[q].body.blob
    ensures q == |front| && now[p] == front[p]
  {
    assert forall l :: 0 <= l < |front| ==> now[l] == front[l];
  }

  lemma ConflictNext(specs: seq<Spec>, n: nat)
    requires n < |specs| && !Conflict(specs[..n])
    ensures Conflict(specs[..n + 1]) <==>
            exists r :: r in Rows(specs[..n], specs[n].body.Of()) && r.body.blob != specs[n].body.blob
  {
    ConflictOneMore(specs[..n], specs[n]);
    assert specs[..n + 1] == specs[..n] + [specs[n]];
  }

  /** The first pass: specs by source, refusing two blobs for one source. */
  method GroupBySource(specs: seq<Spec>) returns (ok: bool, order: seq<Source>, bySource: map<Source, seq<Spec>>)
    ensures ok <==> !Conflict(specs)
    ensures ok ==> order == Keys(specs)
    ensures ok ==> forall k :: k in order ==> k in bySource && bySource[k] == Rows(specs, k)
  {
    order, bySource := [], map[];
    for i := 0 to |specs|
      invariant order == Keys(specs[..i])
      invariant forall k :: k in bySource <==> k in order
      invariant forall k :: k in bySource ==> bySource[k] == Rows(specs[..i], k)
      invariant !Conflict(specs[..i])
    {
      var spec := specs[i];
      var k := spec.body.Of();
      assert specs[..i + 1][..i] == specs[..i];
      if k !in bySource {
        order := order + [k];
        bySource := bySource[k := []];
      }
      var rows := bySource[k];
      ConflictNext(specs, i);
      if exists r :: r in rows && r.body.blob != spec.body.blob {
        ConflictGrows(specs, i + 1);
        return false, order, bySource;
      }
      bySource := bySource[k := rows + [spec]];
    }
    assert specs[..|specs|] == specs;
    ok := true;
  }

  /** The second pass over one source: widen the last row or append. */
  method MergeRows(merged0: seq<Spec>, rows: seq<Spec>, bytes: Measure, names: Naming) returns (merged: seq<Spec>)
    ensures merged == Fold(bytes, names, merged0, rows)
  {
    merged := merged0;
    assert rows[0..] == rows;
    for j := 0 to |rows|
      invariant Fold(bytes, names, merged, rows[j..]) == Fold(bytes, names, merged0, rows)
    {
      FoldStep(bytes, names, merged, rows, j);
      var spec := rows[j];
      var n := |merged|;
      if n > 0 && merged[n - 1].body.Of() == spec.body.Of() && Mergeable(bytes, merged[n - 1].body, spec.body) {
        merged := merged[..n - 1] + [Widen(names, merged[n - 1], spec)];
      } else {
        merged := merged + [spec];
      }
    }
  }

  /** `_union_specs`. */
  method UnionSpecs(core: seq<Spec>, additions: seq<Spec>, bytes: Measure, names: Naming) returns (r: Result<seq<Spec>, PlanError>)
    ensures r == Union(bytes, names, core + additions)
  {
    ghost var specs := core + additions;
    var ok, order, bySource := GroupBySource(core + additions);
    if !ok {
      return Failure(SharedCoreSourceConflict);
    }
    var merged: seq<Spec> := [];
    for i := 0 to |order|
      invariant merged == Groups(bytes, names, specs, order[..i])
    {
      GroupsStep(bytes, names, specs, order, i);
      merged := MergeRows(merged, Sort(bySource[order[i]], RowLe), bytes, names);
    }
    assert order[..|order|] == order;
    return Success(Sort(merged, OutLe));
  }
}
