/** The baseline windows of a commit pair (evaluator/repository.py `baseline_specs`): every changed line
    of every production file, three lines of context around it, overlapping windows merged in place.
    Diff opcodes come from the library; any list that walks both sides will do. */
module BaselineSpecs {
  import opened Wrappers
  import opened Ordering
  import L = LineBreaks
  import P = SourcePayload
  import W = WindowAlgebra
  import WT = WindowTheorems

  const CONTEXT: int := 3

  datatype Entry = Entry(mode: string, oid: string)

  /** A diff opcode: base lines i1 to i2 against head lines j1 to j2, counted from 0. */
  datatype Op = Op(equal: bool, i1: int, i2: int, j1: int, j2: int)

  datatype Diff = Opaque(before: seq<P.Byte>, after: seq<P.Byte>) | Text(baseLines: nat, headLines: nat, ops: seq<Op>)

  /** A changed path: what is at it on either side, and the opcodes between the two when both decode. */
  datatype Change = Change(path: string, before: Option<Entry>, after: Option<Entry>, base: seq<P.Byte>, head: seq<P.Byte>, ops: seq<Op>) {
    predicate IsText() { P.ValidUtf8(base) && P.ValidUtf8(head) }

    /** Lines are those of `splitlines`; a side that does not decode leaves both sides uncompared. */
    function Diff(): Diff {
      if IsText() then Text(|L.SplitLines(base)|, |L.SplitLines(head)|, ops) else Opaque(base, head)
    }

    function Bytes(side: W.Side): seq<P.Byte> { if side == W.Base then base else head }
  }

  /** The opcodes walk both sides from end to end. */
  predicate OpsWalk(ops: seq<Op>, i: int, j: int, n: int, m: int)
    decreases |ops|
  {
    if ops == [] then i == n && j == m
    else ops[0].i1 == i <= ops[0].i2 <= n && ops[0].j1 == j <= ops[0].j2 <= m && OpsWalk(ops[1..], ops[0].i2, ops[0].j2, n, m)
  }

  predicate DiffValid(d: Diff) { d.Text? ==> OpsWalk(d.ops, 0, 0, d.baseLines, d.headLines) }

  function LineFeeds(bytes: seq<P.Byte>): nat {
    if bytes == [] then 0 else LineFeeds(bytes[..|bytes| - 1]) + (if bytes[|bytes| - 1] == P.LF then 1 else 0)
  }

  function SpecOf(names: W.Naming, side: W.Side, path: string, start: int, end: int, oid: string): W.Spec {
    var body := W.Window(W.Changed, side, path, start, end, oid);
    W.Spec(names(body), body)
  }

  /** The whole of a side that is not text. */
  function WholeSide(names: W.Naming, side: W.Side, path: string, entry: Option<Entry>, bytes: seq<P.Byte>): seq<W.Spec> {
    if entry == None then [] else
    var lines := LineFeeds(bytes) + (if bytes != [] && bytes[|bytes| - 1] != P.LF then 1 else 0);
    [SpecOf(names, side, path, 1, Max(1, lines), entry.value.oid)]
  }

  /** One side of one opcode, with its context. */
  function OpSide(names: W.Naming, side: W.Side, path: string, entry: Option<Entry>, lo: int, hi: int, lines: int): seq<W.Spec> {
    if lo == hi || entry == None then [] else [SpecOf(names, side, path, Max(0, lo - CONTEXT) + 1, Min(lines, hi + CONTEXT), entry.value.oid)]
  }

  function OpSpecs(names: W.Naming, c: Change, op: Op): seq<W.Spec>
    requires c.Diff().Text?
  {
    if op.equal then [] else
    OpSide(names, W.Base, c.path, c.before, op.i1, op.i2, c.Diff().baseLines) + OpSide(names, W.Head, c.path, c.after, op.j1, op.j2, c.Diff().headLines)
  }

  function OpsSpecs(names: W.Naming, c: Change, ops: seq<Op>): seq<W.Spec>
    requires c.Diff().Text?
  {
    if ops == [] then [] else OpsSpecs(names, c, ops[..|ops| - 1]) + OpSpecs(names, c, ops[|ops| - 1])
  }

  function ChangeSpecs(names: W.Naming, c: Change): seq<W.Spec> {
    if c.before == c.after then [] else
    match c.Diff()
    case Opaque(before, after) => WholeSide(names, W.Base, c.path, c.before, before) + WholeSide(names, W.Head, c.path, c.after, after)
    case Text(_, _, ops) => OpsSpecs(names, c, ops)
  }

  function AllSpecs(names: W.Naming, changes: seq<Change>): seq<W.Spec> {
    if changes == [] then [] else AllSpecs(names, changes[..|changes| - 1]) + ChangeSpecs(names, changes[|changes| - 1])
  }

  predicate SpecLe(a: W.Spec, b: W.Spec) {
    if a.body.path != b.body.path then TextLe(a.body.path, b.body.path)
    else if a.body.side != b.body.side then a.body.side == W.Base
    else a.body.start < b.body.start || (a.body.start == b.body.start && a.body.end <= b.body.end)
  }

  lemma SpecLeIsTotal()
    ensures TotalPreorder(SpecLe)
  {
    TextLeIsTotalPreorder();
  }

  predicate SameFile(a: W.Window, b: W.Window) { a.side == b.side && a.path == b.path && a.blob == b.blob }

  /** One row into the merged list: the last row widened and renamed, or a new row. */
  function MergeInto(names: W.Naming, merged: seq<W.Spec>, s: W.Spec): (r: seq<W.Spec>)
    ensures r != []
  {
    var n := |merged| - 1;
    if n >= 0 && SameFile(merged[n].body, s.body) && s.body.start <= merged[n].body.end + 1 then
      var body := merged[n].body.(end := Max(merged[n].body.end, s.body.end));
      merged[..n] + [W.Spec(names(body), body)]
    else merged + [s]
  }

  function MergeAll(names: W.Naming, rows: seq<W.Spec>): seq<W.Spec> {
    if rows == [] then [] else MergeInto(names, MergeAll(names, rows[..|rows| - 1]), rows[|rows| - 1])
  }

  function BaselineOf(names: W.Naming, changes: seq<Change>): seq<W.Spec> { MergeAll(names, Sort(AllSpecs(names, changes), SpecLe)) }

  lemma MergeAllStep(names: W.Naming, rows: seq<W.Spec>, i: nat)
    requires i < |rows|
    ensures MergeAll(names, rows[..i + 1]) == MergeInto(names, MergeAll(names, rows[..i]), rows[i])
  {
    assert rows[..i + 1][..i] == rows[..i];
  }

  lemma OpsSpecsStep(names: W.Naming, c: Change, ops: seq<Op>, i: nat)
    requires c.Diff().Text? && i < |ops|
    ensures OpsSpecs(names, c, ops[..i + 1]) == OpsSpecs(names, c, ops[..i]) + OpSpecs(names, c, ops[i])
  {
    assert ops[..i + 1][..i] == ops[..i];
  }

  /** The opcode loop of one text file. */
  method CollectOps(names: W.Naming, c: Change) returns (specs: seq<W.Spec>)
    requires c.Diff().Text?
    ensures specs == OpsSpecs(names, c, c.Diff().ops)
  {
    specs := [];
    for i := 0 to |c.Diff().ops|
      invariant specs == OpsSpecs(names, c, c.Diff().ops[..i])
    {
      OpsSpecsStep(names, c, c.Diff().ops, i);
      specs := specs + OpSpecs(names, c, c.Diff().ops[i]);
    }
    assert c.Diff().ops[..|c.Diff().ops|] == c.Diff().ops;
  }

  /** One changed path: both sides of every opcode, or both whole sides when one does not decode. */
  method CollectChange(names: W.Naming, c: Change) returns (specs: seq<W.Spec>)
    ensures specs == ChangeSpecs(names, c)
  {
    if c.before == c.after { return []; }
    if c.IsText() {
      specs := CollectOps(names, c);
    } else {
      specs := WholeSide(names, W.Base, c.path, c.before, c.base) + WholeSide(names, W.Head, c.path, c.after, c.head);
    }
  }

  /** The merge loop: the last row widened in place, or a new row. */
  method MergeRows(names: W.Naming, rows: seq<W.Spec>) returns (merged: seq<W.Spec>)
    ensures merged == MergeAll(names, rows)
  {
    merged := [];
    for i := 0 to |rows|
      invariant merged == MergeAll(names, rows[..i])
    {
      MergeAllStep(names, rows, i);
      var n := |merged| - 1;
      if n >= 0 && SameFile(merged[n].body, rows[i].body) && rows[i].body.start <= merged[n].body.end + 1 {
        var body := merged[n].body.(end := Max(merged[n].body.end, rows[i].body.end));
        merged := merged[n := W.Spec(names(body), body)];
        assert merged == merged[..n] + [merged[n]];
      } else {
        merged := merged + [rows[i]];
      }
    }
    assert rows[..|rows|] == rows;
  }

  /** `baseline_specs`: collect over changed paths, sort, merge in place. */
  method Baseline(names: W.Naming, changes: seq<Change>) returns (merged: seq<W.Spec>)
    ensures merged == BaselineOf(names, changes)
  {
    var specs: seq<W.Spec> := [];
    for i := 0 to |changes|
      invariant specs == AllSpecs(names, changes[..i])
    {
      assert changes[..i + 1][..i] == changes[..i];
      var more := CollectChange(names, changes[i]);
      specs := specs + more;
    }
    assert changes[..|changes|] == changes;
    merged := MergeRows(names, Sort(specs, SpecLe));
  }

  // ---- Spans -----------------------------------------------------------------------------------------------------------

  ghost predicate OpInside(op: Op, n: int, m: int) { 0 <= op.i1 <= op.i2 <= n && 0 <= op.j1 <= op.j2 <= m }

  lemma {:induction false} WalkStaysInside(ops: seq<Op>, i: int, j: int, n: int, m: int, op: Op)
    requires OpsWalk(ops, i, j, n, m) && 0 <= i && 0 <= j && op in ops
    ensures OpInside(op, n, m)
    decreases |ops|
  {
    if op != ops[0] {
      assert ops == [ops[0]] + ops[1..];
      WalkStaysInside(ops[1..], ops[0].i2, ops[0].j2, n, m, op);
    }
  }

  lemma OpSpansValid(names: W.Naming, c: Change, op: Op)
    requires c.Diff().Text? && OpInside(op, c.Diff().baseLines, c.Diff().headLines)
    ensures WT.ValidSpans(OpSpecs(names, c, op))
  {
  }

  lemma {:induction false} OpsSpansValid(names: W.Naming, c: Change, ops: seq<Op>)
    requires c.Diff().Text? && forall op :: op in ops ==> OpInside(op, c.Diff().baseLines, c.Diff().headLines)
    ensures WT.ValidSpans(OpsSpecs(names, c, ops))
  {
    if ops != [] {
      var n := |ops| - 1;
      assert ops[n] in ops;
      OpsSpansValid(names, c, ops[..n]);
      OpSpansValid(names, c, ops[n]);
    }
  }

  lemma {:induction false} AllSpansValid(names: W.Naming, changes: seq<Change>)
    requires forall c :: c in changes ==> DiffValid(c.Diff())
    ensures WT.ValidSpans(AllSpecs(names, changes))
  {
    if changes != [] {
      var c := changes[|changes| - 1];
      assert c in changes;
      AllSpansValid(names, changes[..|changes| - 1]);
      if c.Diff().Text? {
        forall op | op in c.Diff().ops ensures OpInside(op, c.Diff().baseLines, c.Diff().headLines) {
          WalkStaysInside(c.Diff().ops, 0, 0, c.Diff().baseLines, c.Diff().headLines, op);
        }
        OpsSpansValid(names, c, c.Diff().ops);
      }
    }
  }

  // ---- Merging ---------------------------------------------------------------------------------------------------------

  predicate Holds(s: W.Spec, k: W.Source, line: int) { s.body.Of() == k && s.body.start <= line <= s.body.end }

  ghost predicate Covered(rows: seq<W.Spec>, k: W.Source, line: int) { exists s :: s in rows && Holds(s, k, line) }

  /** Rows of one source are apart by at least one line. */
  ghost predicate Separated(rows: seq<W.Spec>) {
    forall i, j :: 0 <= i < j < |rows| && rows[i].body.Of() == rows[j].body.Of() ==> rows[i].body.end + 1 < rows[j].body.start
  }

  /** Every row's source and start come no later than the bound's. */
  ghost predicate StartsBefore(rows: seq<W.Spec>, bound: W.Spec) {
    forall i :: 0 <= i < |rows| ==> SourceLe(rows[i].body, bound.body) && (rows[i].body.Of() == bound.body.Of() ==> rows[i].body.start <= bound.body.start)
  }

  predicate SourceLe(a: W.Window, b: W.Window) {
    if a.path != b.path then TextLe(a.path, b.path) else a.side == b.side || a.side == W.Base
  }

  /** Sources appear in order. */
  ghost predicate InOrder(rows: seq<W.Spec>) { forall i, j :: 0 <= i < j < |rows| ==> SourceLe(rows[i].body, rows[j].body) }

  lemma SourceLeTransitive(a: W.Window, b: W.Window, c: W.Window)
    requires SourceLe(a, b) && SourceLe(b, c)
    ensures SourceLe(a, c) && (a.Of() == c.Of() ==> b.Of() == a.Of())
  {
    TextLeIsTotalPreorder();
  }

  ghost predicate BlobsAgree(rows: seq<W.Spec>) {
    forall s, t :: s in rows && t in rows && s.body.Of() == t.body.Of() ==> s.body.blob == t.body.blob
  }

  /** One merge keeps the rows apart and in order. */
  lemma MergeKeepsApart(names: W.Naming, merged: seq<W.Spec>, s: W.Spec)
    requires Separated(merged) && InOrder(merged) && StartsBefore(merged, s)
    requires forall m :: m in merged && m.body.Of() == s.body.Of() ==> m.body.blob == s.body.blob
    ensures Separated(MergeInto(names, merged, s)) && InOrder(MergeInto(names, merged, s)) && StartsBefore(MergeInto(names, merged, s), s)
  {
    var n := |merged| - 1;
    if n >= 0 {
      var merges := SameFile(merged[n].body, s.body) && s.body.start <= merged[n].body.end + 1;
      assert merged[n] in merged;
      if !merges {
        forall i | 0 <= i <= n && merged[i].body.Of() == s.body.Of() ensures merged[i].body.end + 1 < s.body.start {
          SourceLeTransitive(merged[i].body, if i < n then merged[n].body else s.body, s.body);
        }
      }
    }
  }

  lemma MergeKeepsLines(names: W.Naming, merged: seq<W.Spec>, s: W.Spec, k: W.Source, line: int)
    requires StartsBefore(merged, s)
    ensures Covered(MergeInto(names, merged, s), k, line) <==> Covered(merged, k, line) || Holds(s, k, line)
  {
    var n := |merged| - 1;
    var next := MergeInto(names, merged, s);
    if n >= 0 && SameFile(merged[n].body, s.body) && s.body.start <= merged[n].body.end + 1 {
      var wide := next[n];
      assert merged == merged[..n] + [merged[n]] && next == merged[..n] + [wide];
      assert merged[n] in merged && wide in next;
      assert Holds(wide, k, line) <==> Holds(merged[n], k, line) || Holds(s, k, line);
    } else {
      assert s in next;
    }
  }

  lemma {:induction false} MergedStartBefore(names: W.Naming, rows: seq<W.Spec>, bound: W.Spec)
    requires forall s :: s in rows ==> SpecLe(s, bound)
    ensures StartsBefore(MergeAll(names, rows), bound)
  {
    if rows != [] {
      var n := |rows| - 1;
      assert rows[n] in rows;
      MergedStartBefore(names, rows[..n], bound);
    }
  }

  /** Merged rows keep a file, and a start, of the rows. */
  lemma {:induction false} MergedComeFrom(names: W.Naming, rows: seq<W.Spec>, m: W.Spec)
    requires m in MergeAll(names, rows)
    ensures exists s :: s in rows && SameFile(s.body, m.body) && s.body.role == m.body.role && s.body.start == m.body.start
  {
    var n := |rows| - 1;
    var front := MergeAll(names, rows[..n]);
    assert rows[n] in rows;
    if m in front {
      MergedComeFrom(names, rows[..n], m);
    } else if m != rows[n] {
      assert front[|front| - 1] in front;
      MergedComeFrom(names, rows[..n], front[|front| - 1]);
    }
  }

  lemma {:induction false} MergedApart(names: W.Naming, rows: seq<W.Spec>)
    requires Sorted(rows, SpecLe) && BlobsAgree(rows)
    ensures Separated(MergeAll(names, rows)) && InOrder(MergeAll(names, rows))
  {
    if rows != [] {
      var n := |rows| - 1;
      var front := MergeAll(names, rows[..n]);
      MergedApart(names, rows[..n]);
      MergedStartBefore(names, rows[..n], rows[n]);
      assert rows[n] in rows;
      forall m | m in front && m.body.Of() == rows[n].body.Of() ensures m.body.blob == rows[n].body.blob {
        MergedComeFrom(names, rows[..n], m);
      }
      MergeKeepsApart(names, front, rows[n]);
    }
  }

  lemma {:induction false} MergedLines(names: W.Naming, rows: seq<W.Spec>, k: W.Source, line: int)
    requires Sorted(rows, SpecLe)
    ensures Covered(MergeAll(names, rows), k, line) <==> Covered(rows, k, line)
  {
    if rows != [] {
      var n := |rows| - 1;
      MergedLines(names, rows[..n], k, line);
      MergedStartBefore(names, rows[..n], rows[n]);
      MergeKeepsLines(names, MergeAll(names, rows[..n]), rows[n], k, line);
      ConcatCovered(rows[..n], [rows[n]], k, line);
      OneCovered(rows[n], k, line);
      assert rows[..n] + [rows[n]] == rows;
    }
  }

  lemma {:induction false} MergedSpans(names: W.Naming, rows: seq<W.Spec>)
    requires WT.ValidSpans(rows)
    ensures WT.ValidSpans(MergeAll(names, rows))
  {
    if rows != [] {
      var n := |rows| - 1;
      assert rows[n] in rows;
      MergedSpans(names, rows[..n]);
      MergeKeepsSpans(names, MergeAll(names, rows[..n]), rows[n]);
    }
  }

  lemma MergeKeepsSpans(names: W.Naming, merged: seq<W.Spec>, s: W.Spec)
    requires WT.ValidSpans(merged) && 1 <= s.body.start <= s.body.end
    ensures WT.ValidSpans(MergeInto(names, merged, s))
  {
    var next := MergeInto(names, merged, s);
    if merged != [] { assert merged[|merged| - 1] in merged; }
    forall m | m in next ensures m in merged || m == s || (merged != [] && m == next[|next| - 1]) {}
  }

  // ---- What the baseline covers ------------------------------------------------------------------------------------------

  function EntryOn(c: Change, side: W.Side): Option<Entry> { if side == W.Base then c.before else c.after }
  function LinesOn(c: Change, side: W.Side): int
    requires c.Diff().Text?
  {
    if side == W.Base then c.Diff().baseLines else c.Diff().headLines
  }

  /** Line `x`, counted from 1, is in a changed stretch of the side. */
  predicate Touches(op: Op, side: W.Side, x: int) {
    !op.equal && if side == W.Base then op.i1 < x <= op.i2 else op.j1 < x <= op.j2
  }

  /** A changed line of the file, within the context of `line`. */
  ghost predicate Near(c: Change, side: W.Side, line: int)
    requires c.Diff().Text?
  {
    exists op, x :: op in c.Diff().ops && Touches(op, side, x) && x - CONTEXT <= line <= x + CONTEXT
  }

  function OpaqueLines(c: Change, side: W.Side): int
    requires c.Diff().Opaque?
  {
    var bytes := c.Bytes(side);
    Max(1, LineFeeds(bytes) + (if bytes != [] && bytes[|bytes| - 1] != P.LF then 1 else 0))
  }

  /** The change asks for the line: it is within three lines of a changed one, or the file is not text. */
  ghost predicate Wants(c: Change, k: W.Source, line: int) {
    && c.before != c.after && c.path == k.path && EntryOn(c, k.side).Some?
    && if c.Diff().Opaque? then 1 <= line <= OpaqueLines(c, k.side) else 1 <= line <= LinesOn(c, k.side) && Near(c, k.side, line)
  }

  lemma OneCovered(s: W.Spec, k: W.Source, line: int)
    ensures Covered([s], k, line) <==> Holds(s, k, line)
  {
    assert s in [s];
  }

  lemma ConcatCovered(a: seq<W.Spec>, b: seq<W.Spec>, k: W.Source, line: int)
    ensures Covered(a + b, k, line) <==> Covered(a, k, line) || Covered(b, k, line)
  {
    if Covered(a, k, line) { var s :| s in a && Holds(s, k, line); assert s in a + b; }
    if Covered(b, k, line) { var s :| s in b && Holds(s, k, line); assert s in a + b; }
  }

  lemma SideCovered(names: W.Naming, side: W.Side, path: string, entry: Option<Entry>, lo: int, hi: int, lines: int, k: W.Source, line: int)
    requires 0 <= lo <= hi <= lines
    ensures Covered(OpSide(names, side, path, entry, lo, hi, lines), k, line) <==>
            k == W.Source(side, path) && entry.Some? && lo < hi && 1 <= line <= lines && lo + 1 - CONTEXT <= line <= hi + CONTEXT
  {
    if lo < hi && entry.Some? { OneCovered(OpSide(names, side, path, entry, lo, hi, lines)[0], k, line); }
  }

  ghost predicate NearOp(op: Op, side: W.Side, line: int) { exists x :: Touches(op, side, x) && x - CONTEXT <= line <= x + CONTEXT }

  lemma OpCovered(names: W.Naming, c: Change, op: Op, k: W.Source, line: int)
    requires c.Diff().Text? && OpInside(op, c.Diff().baseLines, c.Diff().headLines)
    ensures Covered(OpSpecs(names, c, op), k, line) <==>
            k.path == c.path && EntryOn(c, k.side).Some? && 1 <= line <= LinesOn(c, k.side) && NearOp(op, k.side, line)
  {
    SideCovered(names, W.Base, c.path, c.before, op.i1, op.i2, c.Diff().baseLines, k, line);
    SideCovered(names, W.Head, c.path, c.after, op.j1, op.j2, c.Diff().headLines, k, line);
    if !op.equal {
      ConcatCovered(OpSide(names, W.Base, c.path, c.before, op.i1, op.i2, c.Diff().baseLines),
                    OpSide(names, W.Head, c.path, c.after, op.j1, op.j2, c.Diff().headLines), k, line);
      NearRange(op, k.side, line);
    }
  }

  /** Within three lines of a stretch is within three lines of one of its lines. */
  lemma NearRange(op: Op, side: W.Side, line: int)
    requires !op.equal
    ensures var lo, hi := if side == W.Base then op.i1 else op.j1, if side == W.Base then op.i2 else op.j2;
            NearOp(op, side, line) <==> lo < hi && lo + 1 - CONTEXT <= line <= hi + CONTEXT
  {
    var lo, hi := if side == W.Base then op.i1 else op.j1, if side == W.Base then op.i2 else op.j2;
    if lo < hi && lo + 1 - CONTEXT <= line <= hi + CONTEXT {
      var x := if line <= lo then lo + 1 else if line > hi then hi else line;
      assert Touches(op, side, x) && x - CONTEXT <= line <= x + CONTEXT;
    }
  }

  lemma {:induction false} OpsCovered(names: W.Naming, c: Change, ops: seq<Op>, k: W.Source, line: int)
    requires c.Diff().Text? && forall op :: op in ops ==> OpInside(op, c.Diff().baseLines, c.Diff().headLines)
    ensures Covered(OpsSpecs(names, c, ops), k, line) <==>
            k.path == c.path && EntryOn(c, k.side).Some? && 1 <= line <= LinesOn(c, k.side) && exists op :: op in ops && NearOp(op, k.side, line)
  {
    if ops != [] {
      var n := |ops| - 1;
      assert ops == ops[..n] + [ops[n]] && ops[n] in ops;
      OpsCovered(names, c, ops[..n], k, line);
      OpCovered(names, c, ops[n], k, line);
      ConcatCovered(OpsSpecs(names, c, ops[..n]), OpSpecs(names, c, ops[n]), k, line);
    }
  }

  lemma ChangeCovered(names: W.Naming, c: Change, k: W.Source, line: int)
    requires DiffValid(c.Diff())
    ensures Covered(ChangeSpecs(names, c), k, line) <==> Wants(c, k, line)
  {
    if c.before != c.after {
      match c.Diff() {
        case Opaque(before, after) =>
          var a, b := WholeSide(names, W.Base, c.path, c.before, before), WholeSide(names, W.Head, c.path, c.after, after);
          ConcatCovered(a, b, k, line);
          if a != [] { OneCovered(a[0], k, line); }
          if b != [] { OneCovered(b[0], k, line); }
        case Text(n, m, ops) =>
          forall op | op in ops ensures OpInside(op, n, m) { WalkStaysInside(ops, 0, 0, n, m, op); }
          OpsCovered(names, c, ops, k, line);
          NearIsNearSome(c, k.side, line);
      }
    }
  }

  lemma NearIsNearSome(c: Change, side: W.Side, line: int)
    requires c.Diff().Text?
    ensures Near(c, side, line) <==> exists op :: op in c.Diff().ops && NearOp(op, side, line)
  {}

  lemma {:induction false} AllCovered(names: W.Naming, changes: seq<Change>, k: W.Source, line: int)
    requires forall c :: c in changes ==> DiffValid(c.Diff())
    ensures Covered(AllSpecs(names, changes), k, line) <==> exists c :: c in changes && Wants(c, k, line)
  {
    if changes != [] {
      var n := |changes| - 1;
      assert changes == changes[..n] + [changes[n]] && changes[n] in changes;
      AllCovered(names, changes[..n], k, line);
      ChangeCovered(names, changes[n], k, line);
      ConcatCovered(AllSpecs(names, changes[..n]), ChangeSpecs(names, changes[n]), k, line);
    }
  }

  lemma {:induction false} SpecsNameTheirFile(names: W.Naming, changes: seq<Change>, s: W.Spec)
    requires s in AllSpecs(names, changes)
    ensures exists c :: c in changes && c.path == s.body.path && EntryOn(c, s.body.side).Some? && s.body.blob == EntryOn(c, s.body.side).value.oid
  {
    var n := |changes| - 1;
    assert changes[n] in changes;
    if s in AllSpecs(names, changes[..n]) {
      SpecsNameTheirFile(names, changes[..n], s);
    } else if changes[n].Diff().Text? {
      OpsNameTheirFile(names, changes[n], changes[n].Diff().ops, s);
    }
  }

  lemma {:induction false} OpsNameTheirFile(names: W.Naming, c: Change, ops: seq<Op>, s: W.Spec)
    requires c.Diff().Text? && s in OpsSpecs(names, c, ops)
    ensures c.path == s.body.path && EntryOn(c, s.body.side).Some? && s.body.blob == EntryOn(c, s.body.side).value.oid
  {
    if s in OpsSpecs(names, c, ops[..|ops| - 1]) { OpsNameTheirFile(names, c, ops[..|ops| - 1], s); }
  }

  /** The changes of a commit pair: opcodes that walk, and one change a path. */
  ghost predicate Pair(changes: seq<Change>) {
    (forall c :: c in changes ==> DiffValid(c.Diff())) && forall c, d :: c in changes && d in changes && c.path == d.path ==> c == d
  }

  /** The baseline windows: proper spans, apart from each other in every file, and covering exactly the
      lines within three of a changed line, or the whole of a side that is not text. */
  lemma BaselineCoversTheChanges(names: W.Naming, changes: seq<Change>, k: W.Source, line: int)
    requires Pair(changes)
    ensures WT.ValidSpans(BaselineOf(names, changes)) && Separated(BaselineOf(names, changes))
    ensures Covered(BaselineOf(names, changes), k, line) <==> exists c :: c in changes && Wants(c, k, line)
  {
    var specs := AllSpecs(names, changes);
    var rows := Sort(specs, SpecLe);
    AllSpansValid(names, changes);
    AllCovered(names, changes, k, line);
    SpecLeIsTotal();
    SortSpec(specs, SpecLe);
    SortMembers(specs, SpecLe);
    forall s, t | s in rows && t in rows && s.body.Of() == t.body.Of() ensures s.body.blob == t.body.blob {
      SpecsNameTheirFile(names, changes, s);
      SpecsNameTheirFile(names, changes, t);
    }
    MergedSpans(names, rows);
    MergedApart(names, rows);
    MergedLines(names, rows, k, line);
    assert Covered(rows, k, line) <==> Covered(specs, k, line);
  }

  // ---- Reading the windows ---------------------------------------------------------------------------------------------

  /** Every baseline window of the file can be cut out of its bytes. */
  ghost predicate AllRead(rows: seq<W.Spec>, k: W.Source, bytes: seq<P.Byte>) {
    forall s :: s in rows && s.body.Of() == k ==> P.Excerpt(bytes, s.body.start, s.body.end).Payload?
  }

  /** Windows are in `splitlines` lines and excerpts in LF lines.  The windows of a side that is text can all be
      read exactly when no line asked for lies beyond its last LF line; and always when every line break but
      LF and CR LF stands at the very end of the file. */
  lemma WindowsReadInLfLines(names: W.Naming, changes: seq<Change>, c: Change, k: W.Source, bytes: seq<P.Byte>)
    requires Pair(changes) && c in changes && c.IsText() && k.path == c.path && bytes == c.Bytes(k.side)
    ensures AllRead(BaselineOf(names, changes), k, bytes) <==> forall line :: Wants(c, k, line) ==> line <= |P.Lines(bytes)|
    ensures L.PlainBreaks(bytes) ==> AllRead(BaselineOf(names, changes), k, bytes)
  {
    var rows := BaselineOf(names, changes);
    forall line ensures Covered(rows, k, line) <==> Wants(c, k, line) { BaselineCoversTheChanges(names, changes, k, line); }
    forall s | s in rows && s.body.Of() == k
      ensures Wants(c, k, s.body.end) && (P.Excerpt(bytes, s.body.start, s.body.end).Payload? <==> s.body.end <= |P.Lines(bytes)|)
    {
      BaselineCoversTheChanges(names, changes, k, s.body.end);
      assert Holds(s, k, s.body.end);
      P.ExcerptDecodes(bytes, s.body.start, s.body.end);
    }
    L.CountsAgree(bytes);
  }

  /** A file added with a bare carriage return gets a window that cannot be read. */
  lemma BareReturnIsUnreadable(names: W.Naming, path: string, entry: Entry)
    ensures var c := Change(path, None, Some(entry), [], [97, 13, 98], [Op(false, 0, 0, 0, 2)]);
            Pair([c]) && c.IsText() && !AllRead(BaselineOf(names, [c]), W.Source(W.Head, path), c.head)
  {
    var op, c := Op(false, 0, 0, 0, 2), Change(path, None, Some(entry), [], [97, 13, 98], [Op(false, 0, 0, 0, 2)]);
    L.BareReturnIsCountedTwice();
    assert OpsWalk([], 0, 2, 0, 2) && c.ops[1..] == [];
    assert c in [c] && op in c.ops && Touches(op, W.Head, 2);
    assert Wants(c, W.Source(W.Head, path), 2);
    WindowsReadInLfLines(names, [c], c, W.Source(W.Head, path), c.head);
  }
}
