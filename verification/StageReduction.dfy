/** The 2x2 reduction of a model stage (evaluator/stage_driver.py `_reduce`, `_decision`,
    `_run_units`, `stage1`, `stage2a`). */
module StageReduction {
  import opened Wrappers
  import opened Ordering
  import opened Counting
  import opened Grouping

  datatype Stage = Stage1 | Stage2a

  datatype Cell = Cell(
    unitId: string,
    repository: string,
    a: int,
    b: int,
    backendIntegrity: bool,
    leakageIntegrity: bool,
    judgeComplete: bool,
    judgePositiveA: bool,
    judgePositiveB: bool)

  datatype Row = Row(repository: string, n: nat, a0: nat, a1: nat, b0: nat, b1: nat, n00: nat, b: nat, c: nat, n11: nat)

  datatype LeftOut = LeftOut(repository: string, n: int, b: int, c: int)

  datatype Gates = Gates(
    stage0: bool,
    primaryRectangle: bool,
    sensitivityTables: bool,
    backendIntegrity: bool,
    leakageIntegrity: bool,
    judgeCompleteness: bool,
    controlAdequacy: bool,
    safety: bool)

  datatype Decision = Advance | Stop | Passed | Failed

  datatype Reason =
    | Stage0GatesFailed | PairedThresholdNotMet | SensitivityTablesIncomplete | BackendIntegrityFailed
    | LeakageIntegrityFailed | JudgeBatchIncomplete | InsufficientControlObservations | SafetyGateFailed

  datatype StageResult = StageResult(
    stage: Stage,
    cells: seq<Cell>,
    n: nat, n00: nat, b: nat, c: nat, n11: nat,
    repositories: seq<Row>,
    leaveOneOut: seq<LeftOut>,
    gates: Gates,
    reviewerCalls: nat,
    judgeCalls: nat,
    decision: Decision,
    reasons: seq<Reason>)

  // ---- Cells ------------------------------------------------------------------------------------

  predicate Is00(x: Cell) { x.a == 0 && x.b == 0 }
  predicate Is01(x: Cell) { x.a == 0 && x.b == 1 }
  predicate Is10(x: Cell) { x.a == 1 && x.b == 0 }
  predicate Is11(x: Cell) { x.a == 1 && x.b == 1 }
  predicate A0(x: Cell) { x.a == 0 }
  predicate A1(x: Cell) { x.a == 1 }
  predicate B0(x: Cell) { x.b == 0 }
  predicate B1(x: Cell) { x.b == 1 }
  predicate Any(x: Cell) { true }

  /** Both entries of the pair are 0 or 1, as `int(row["completed"] is True)` is. */
  predicate Binary(cells: seq<Cell>) {
    forall x :: x in cells ==> (x.a == 0 || x.a == 1) && (x.b == 0 || x.b == 1)
  }

  function In(cells: seq<Cell>, root: string): (r: seq<Cell>)
    ensures forall x :: x in r <==> x in cells && x.repository == root
  {
    if cells == [] then []
    else (if cells[0].repository == root then [cells[0]] else []) + In(cells[1..], root)
  }

  function Without(cells: seq<Cell>, root: string): (r: seq<Cell>)
    ensures forall x :: x in r <==> x in cells && x.repository != root
  {
    if cells == [] then []
    else (if cells[0].repository == root then [] else [cells[0]]) + Without(cells[1..], root)
  }

  /** The distinct repository roots, in order. */
  function FirstRoots(cells: seq<Cell>): (r: seq<string>)
    ensures Distinct(r) && forall x :: x in r <==> exists c :: c in cells && c.repository == x
  {
    if cells == [] then [] else
    var rest := FirstRoots(cells[1..]);
    assert cells == [cells[0]] + cells[1..];
    if cells[0].repository in rest then rest else [cells[0].repository] + rest
  }

  function Roots(cells: seq<Cell>): seq<string> { Sort(FirstRoots(cells), TextLe) }

  function RowOf(cells: seq<Cell>, root: string): Row {
    var s := In(cells, root);
    Row(root, |s|, Count(s, A0), Count(s, A1), Count(s, B0), Count(s, B1), Count(s, Is00), Count(s, Is01), Count(s, Is10), Count(s, Is11))
  }

  function RowsOf(cells: seq<Cell>, roots: seq<string>): (r: seq<Row>)
    ensures |r| == |roots| && forall i :: 0 <= i < |roots| ==> r[i] == RowOf(cells, roots[i])
  {
    if roots == [] then [] else [RowOf(cells, roots[0])] + RowsOf(cells, roots[1..])
  }

  function LeaveOneOut(n: nat, b: nat, c: nat, rows: seq<Row>): (r: seq<LeftOut>)
    ensures |r| == |rows| && forall i :: 0 <= i < |rows| ==> r[i] == LeftOut(rows[i].repository, n - rows[i].n, b - rows[i].b, c - rows[i].c)
  {
    if rows == [] then []
    else [LeftOut(rows[0].repository, n - rows[0].n, b - rows[0].b, c - rows[0].c)] + LeaveOneOut(n, b, c, rows[1..])
  }

  function UnitIds(cells: seq<Cell>): set<string> { set x | x in cells :: x.unitId }

  // ---- Gates and decision --------------------------------------------------------------------------

  function ExpectedPairs(stage: Stage): nat { if stage == Stage1 then 10 else 40 }

  predicate CellShape(cells: seq<Cell>) { Binary(cells) && forall x :: x in cells ==> x.repository != "" }

  predicate RowAddsUp(r: Row) {
    r.n > 0 && r.a0 + r.a1 == r.n && r.b0 + r.b1 == r.n && r.n00 + r.b + r.c + r.n11 == r.n
  }

  predicate SensitivityComplete(stage: Stage, cells: seq<Cell>, rows: seq<Row>) {
    && |cells| == ExpectedPairs(stage) && |UnitIds(cells)| == ExpectedPairs(stage)
    && CellShape(cells) && |rows| == 3
    && (forall r :: r in rows ==> RowAddsUp(r))
    && Sum(Map(rows, (r: Row) => r.n)) == ExpectedPairs(stage)
  }

  /** Units whose two labels agree on a clean refactor. */
  function Controls(cells: seq<Cell>, clean: set<string>): set<string> { UnitIds(cells) * clean }

  function GatesOf(stage: Stage, cells: seq<Cell>, rows: seq<Row>, clean: set<string>, stage0Passed: bool): Gates {
    var controls := Controls(cells, clean);
    var safetyA := Count(cells, (x: Cell) => x.unitId in controls && x.judgePositiveA);
    var safetyB := Count(cells, (x: Cell) => x.unitId in controls && x.judgePositiveB);
    Gates(
      stage0Passed,
      if stage == Stage1 then Count(cells, Is01) >= 8 && Count(cells, Is10) <= 1
      else Count(cells, Is01) >= 18 && Count(cells, Is10) <= 7,
      SensitivityComplete(stage, cells, rows),
      forall x :: x in cells ==> x.backendIntegrity,
      forall x :: x in cells ==> x.leakageIntegrity,
      forall x :: x in cells ==> x.judgeComplete,
      |controls| >= (if stage == Stage1 then 2 else 8),
      safetyB <= safetyA + 1)
  }

  function Name(holds: bool, reason: Reason): seq<Reason> { if holds then [] else [reason] }

  /** `_decision`: every failed gate gives its reason, in the order of the gates. */
  function Reasons(g: Gates): seq<Reason> {
    Name(g.stage0, Stage0GatesFailed) + Name(g.primaryRectangle, PairedThresholdNotMet)
    + Name(g.sensitivityTables, SensitivityTablesIncomplete) + Name(g.backendIntegrity, BackendIntegrityFailed)
    + Name(g.leakageIntegrity, LeakageIntegrityFailed) + Name(g.judgeCompleteness, JudgeBatchIncomplete)
    + Name(g.controlAdequacy, InsufficientControlObservations) + Name(g.safety, SafetyGateFailed)
  }

  predicate Holds(g: Gates, reason: Reason) {
    match reason
    case Stage0GatesFailed => g.stage0
    case PairedThresholdNotMet => g.primaryRectangle
    case SensitivityTablesIncomplete => g.sensitivityTables
    case BackendIntegrityFailed => g.backendIntegrity
    case LeakageIntegrityFailed => g.leakageIntegrity
    case JudgeBatchIncomplete => g.judgeCompleteness
    case InsufficientControlObservations => g.controlAdequacy
    case SafetyGateFailed => g.safety
  }

  function Decide(stage: Stage, g: Gates): Decision {
    if Reasons(g) == [] then (if stage == Stage1 then Advance else Passed)
    else (if stage == Stage1 then Stop else Failed)
  }

  function Reduce(stage: Stage, cells: seq<Cell>, clean: set<string>, stage0Passed: bool, reviewerCalls: nat, judgeCalls: nat): StageResult {
    var b, c := Count(cells, Is01), Count(cells, Is10);
    var rows := RowsOf(cells, Roots(cells));
    var gates := GatesOf(stage, cells, rows, clean, stage0Passed);
    StageResult(stage, cells, |cells|, Count(cells, Is00), b, c, Count(cells, Is11), rows, LeaveOneOut(|cells|, b, c, rows),
                gates, reviewerCalls, judgeCalls, Decide(stage, gates), Reasons(gates))
  }

  // ---- The tables add up ----------------------------------------------------------------------------

  lemma {:induction false} FourCells(cells: seq<Cell>)
    requires Binary(cells)
    ensures Count(cells, Is00) + Count(cells, Is01) + Count(cells, Is10) + Count(cells, Is11) == |cells|
    ensures Count(cells, A0) + Count(cells, A1) == |cells| && Count(cells, B0) + Count(cells, B1) == |cells|
    ensures Count(cells, A0) == Count(cells, Is00) + Count(cells, Is01)
    ensures Count(cells, B0) == Count(cells, Is00) + Count(cells, Is10)
  {
    if cells != [] {
      assert cells[0] in cells;
      FourCells(cells[1..]);
    }
  }

  lemma {:induction false} CountSplits(cells: seq<Cell>, root: string, p: Cell -> bool)
    ensures Count(cells, p) == Count(In(cells, root), p) + Count(Without(cells, root), p)
    ensures |cells| == |In(cells, root)| + |Without(cells, root)|
  {
    if cells != [] {
      CountSplits(cells[1..], root, p);
      var first := if cells[0].repository == root then [cells[0]] else [];
      var other := if cells[0].repository == root then [] else [cells[0]];
      CountAppend(first, In(cells[1..], root), p);
      CountAppend(other, Without(cells[1..], root), p);
      assert [cells[0]][1..] == [];
    }
  }

  function SumOver(cells: seq<Cell>, roots: seq<string>, p: Cell -> bool): nat {
    if roots == [] then 0 else Count(In(cells, roots[0]), p) + SumOver(cells, roots[1..], p)
  }

  lemma {:induction false} WithoutKeepsOthers(cells: seq<Cell>, root: string, other: string)
    requires root != other
    ensures In(Without(cells, root), other) == In(cells, other)
  {
    if cells != [] {
      var rest := Without(cells[1..], root);
      WithoutKeepsOthers(cells[1..], root, other);
      assert Without(cells, root) == if cells[0].repository == root then rest else [cells[0]] + rest;
      assert ([cells[0]] + rest)[1..] == rest;
    }
  }

  lemma {:induction false} SumOverWithout(cells: seq<Cell>, root: string, roots: seq<string>, p: Cell -> bool)
    requires root !in roots
    ensures SumOver(Without(cells, root), roots, p) == SumOver(cells, roots, p)
  {
    if roots != [] {
      WithoutKeepsOthers(cells, root, roots[0]);
      SumOverWithout(cells, root, roots[1..], p);
    }
  }

  lemma NoRootsNoCells(cells: seq<Cell>, roots: seq<string>)
    requires forall x :: x in cells ==> x.repository in roots
    ensures roots == [] ==> cells == []
  {
    if cells != [] { assert cells[0].repository in roots; }
  }

  lemma {:induction false} SumOverRoots(cells: seq<Cell>, roots: seq<string>, p: Cell -> bool)
    requires Distinct(roots) && forall x :: x in cells ==> x.repository in roots
    ensures SumOver(cells, roots, p) == Count(cells, p)
    decreases |roots|
  {
    NoRootsNoCells(cells, roots);
    if roots != [] {
      var rest := Without(cells, roots[0]);
      CountSplits(cells, roots[0], p);
      assert roots == [roots[0]] + roots[1..];
      SumOverRoots(rest, roots[1..], p);
      SumOverWithout(cells, roots[0], roots[1..], p);
    }
  }

  lemma RootsCover(cells: seq<Cell>)
    ensures Distinct(Roots(cells)) && Sorted(Roots(cells), TextLe)
    ensures forall x :: x in Roots(cells) <==> exists c :: c in cells && c.repository == x
  {
    TextLeIsTotalPreorder();
    SortSpec(FirstRoots(cells), TextLe);
    SortMembers(FirstRoots(cells), TextLe);
    DistinctIgnoresOrder(Roots(cells), FirstRoots(cells));
  }

  /** A row field that counts, in each repository, what `p` holds of. */
  ghost predicate Counts(f: Row -> nat, p: Cell -> bool) {
    forall cells, root :: f(RowOf(cells, root)) == Count(In(cells, root), p)
  }

  lemma {:induction false} SumIsSumOver(cells: seq<Cell>, roots: seq<string>, f: Row -> nat, p: Cell -> bool)
    requires Counts(f, p)
    ensures Sum(Map(RowsOf(cells, roots), f)) == SumOver(cells, roots, p)
  {
    if roots != [] {
      SumIsSumOver(cells, roots[1..], f, p);
      assert Map(RowsOf(cells, roots), f)[1..] == Map(RowsOf(cells, roots[1..]), f);
    }
  }

  lemma {:induction false} CountAny(cells: seq<Cell>)
    ensures Count(cells, Any) == |cells|
  {
    if cells != [] { CountAny(cells[1..]); }
  }

  /** Summed over the repositories, any counted column gives the count over all cells. */
  lemma ColumnTotals(cells: seq<Cell>, f: Row -> nat, p: Cell -> bool)
    requires Counts(f, p)
    ensures Sum(Map(RowsOf(cells, Roots(cells)), f)) == Count(cells, p)
  {
    RootsCover(cells);
    SumIsSumOver(cells, Roots(cells), f, p);
    SumOverRoots(cells, Roots(cells), p);
  }

  // ---- Main results ------------------------------------------------------------------------------------

  /** The four cells partition the pairs, overall and in every repository, and the repository rows
      sum to the totals. */
  predicate TablesAddUp(r: StageResult) {
    && r.n00 + r.b + r.c + r.n11 == r.n
    && (forall row :: row in r.repositories ==> RowAddsUp(row))
    && Sum(Map(r.repositories, (x: Row) => x.n)) == r.n
    && Sum(Map(r.repositories, (x: Row) => x.n00)) == r.n00
    && Sum(Map(r.repositories, (x: Row) => x.b)) == r.b
    && Sum(Map(r.repositories, (x: Row) => x.c)) == r.c
    && Sum(Map(r.repositories, (x: Row) => x.n11)) == r.n11
  }

  lemma TablesPartition(stage: Stage, cells: seq<Cell>, clean: set<string>, stage0Passed: bool, reviewer: nat, judge: nat)
    requires Binary(cells)
    ensures TablesAddUp(Reduce(stage, cells, clean, stage0Passed, reviewer, judge))
  {
    FourCells(cells);
    RootsCover(cells);
    forall row | row in RowsOf(cells, Roots(cells)) ensures RowAddsUp(row) {
      RowPartition(cells, row);
    }
    assert Counts((x: Row) => x.n, Any) by {
      forall cells, root ensures RowOf(cells, root).n == Count(In(cells, root), Any) { CountAny(In(cells, root)); }
    }
    CountAny(cells);
    ColumnTotals(cells, (x: Row) => x.n, Any);
    ColumnTotals(cells, (x: Row) => x.n00, Is00);
    ColumnTotals(cells, (x: Row) => x.b, Is01);
    ColumnTotals(cells, (x: Row) => x.c, Is10);
    ColumnTotals(cells, (x: Row) => x.n11, Is11);
  }

  lemma RowPartition(cells: seq<Cell>, row: Row)
    requires Binary(cells) && row in RowsOf(cells, Roots(cells))
    ensures RowAddsUp(row)
  {
    RootsCover(cells);
    var i :| 0 <= i < |Roots(cells)| && RowsOf(cells, Roots(cells))[i] == row;
    var root := Roots(cells)[i];
    assert root in Roots(cells);
    var c :| c in cells && c.repository == root;
    assert c in In(cells, root);
    FourCells(In(cells, root));
  }

  /** A leave-one-out row is what recomputation on the remaining cells gives. */
  lemma LeaveOneOutIsRecomputation(stage: Stage, cells: seq<Cell>, clean: set<string>, stage0Passed: bool, reviewer: nat, judge: nat, i: nat)
    requires i < |Roots(cells)|
    ensures var r := Reduce(stage, cells, clean, stage0Passed, reviewer, judge);
            var rest := Without(cells, Roots(cells)[i]);
            && |r.leaveOneOut| == |r.repositories| == |Roots(cells)|
            && r.leaveOneOut[i] == LeftOut(Roots(cells)[i], |rest|, Count(rest, Is01), Count(rest, Is10))
  {
    CountSplits(cells, Roots(cells)[i], Is01);
    CountSplits(cells, Roots(cells)[i], Is10);
  }

  /** The consistency checks inside the sensitivity gate never fail on binary cells: the gate
      is about the number of pairs, their identities and the repositories they span. */
  lemma SensitivityIsShape(stage: Stage, cells: seq<Cell>, clean: set<string>, stage0Passed: bool, reviewer: nat, judge: nat)
    ensures Reduce(stage, cells, clean, stage0Passed, reviewer, judge).gates.sensitivityTables <==>
            && |cells| == ExpectedPairs(stage) && |UnitIds(cells)| == ExpectedPairs(stage)
            && CellShape(cells) && |FirstRoots(cells)| == 3
  {
    TextLeIsTotalPreorder();
    SortSpec(FirstRoots(cells), TextLe);
    if CellShape(cells) {
      TablesPartition(stage, cells, clean, stage0Passed, reviewer, judge);
    }
  }

  /** The reasons name exactly the failed gates, so a stage passes exactly when every gate holds. */
  lemma ReasonsNameFailedGates(g: Gates, reason: Reason)
    ensures reason in Reasons(g) <==> !Holds(g, reason)
  {}

  lemma PassMeansEveryGate(stage: Stage, g: Gates)
    ensures Decide(stage, g) in {Advance, Passed} <==> forall reason :: Holds(g, reason)
  {
    forall reason ensures reason in Reasons(g) <==> !Holds(g, reason) {
      ReasonsNameFailedGates(g, reason);
    }
    if Reasons(g) != [] { assert Reasons(g)[0] in Reasons(g); }
  }

  // ---- The cell of a unit ----------------------------------------------------------------------------------

  datatype Unit = Unit(unitId: string, repository: string)

  datatype StageError = UnitRunInvalid | ArmMappingInvalid | CallRectangleInvalid | Stage1NotAdvanced

  datatype Call = Call(processExit: int, timeout: bool, toolCalls: nat, adapterAsFixed: bool)

  /** What a slot of a sealed run holds: its arm, its call, its failure codes and the conclusions of its claims. */
  datatype Slot = Slot(arm: string, call: Call, codes: seq<string>, conclusions: Option<seq<string>>)

  datatype ArmScore = ArmScore(arm: string, completed: bool)

  /** What `_cell` reads of a sealed run that verified. */
  datatype Sealed = Sealed(baseline: string, treatment: string, scores: seq<ArmScore>, slots: seq<Slot>, judge: Call, judged: bool, judgeScores: nat)

  predicate CallClean(c: Call) { c.processExit == 0 && !c.timeout && c.toolCalls == 0 && c.adapterAsFixed }

  const LENS_LEAK := "reviewer_lens_leak"
  const ISSUE_PRESENT := "issue_present"

  /** The primary scores by arm: of two rows for one arm the later stays. */
  function Completed(scores: seq<ArmScore>): map<string, bool> {
    if scores == [] then map[] else
    var n := |scores| - 1;
    Completed(scores[..n])[scores[n].arm := scores[n].completed]
  }

  /** Both arms of the pair are scored and nothing else is, and every slot holds one of them. */
  predicate ArmsMapped(x: Sealed) {
    Completed(x.scores).Keys == {x.baseline, x.treatment} && forall s :: s in x.slots ==> s.arm == x.baseline || s.arm == x.treatment
  }

  /** The slot's arm was completed with a claim that an issue is present. */
  predicate Positive(x: Sealed, s: Slot) {
    s.arm in Completed(x.scores) && Completed(x.scores)[s.arm] && s.conclusions.Some? && ISSUE_PRESENT in s.conclusions.value
  }

  /** The last parsed slot of the arm decides. */
  predicate JudgedPositive(x: Sealed, slots: seq<Slot>, arm: string) {
    slots != [] &&
    var last := slots[|slots| - 1];
    if last.arm == arm && last.conclusions.Some? then Positive(x, last) else JudgedPositive(x, slots[..|slots| - 1], arm)
  }

  function AsBit(x: Sealed, arm: string): int { if arm in Completed(x.scores) && Completed(x.scores)[arm] then 1 else 0 }

  function SealedCell(u: Unit, x: Sealed): Cell {
    Cell(u.unitId, u.repository, AsBit(x, x.baseline), AsBit(x, x.treatment),
         (forall s :: s in x.slots ==> CallClean(s.call)) && CallClean(x.judge), forall s :: s in x.slots ==> LENS_LEAK !in s.codes,
         x.judged && x.judgeScores == 2, JudgedPositive(x, x.slots, x.baseline), JudgedPositive(x, x.slots, x.treatment))
  }

  /** The dict comprehension over the primary scores. */
  method ReadScores(scores: seq<ArmScore>) returns (completed: map<string, bool>)
    ensures completed == Completed(scores)
  {
    completed := map[];
    for i := 0 to |scores|
      invariant completed == Completed(scores[..i])
    {
      assert scores[..i + 1][..i] == scores[..i];
      completed := completed[scores[i].arm := scores[i].completed];
    }
    assert scores[..|scores|] == scores;
  }

  /** Reading one more slot settles its own arm if it was parsed, and leaves the other as it was. */
  lemma PositiveStep(x: Sealed, i: nat, arm: string)
    requires i < |x.slots|
    ensures var s := x.slots[i];
            JudgedPositive(x, x.slots[..i + 1], arm) ==
            if s.arm == arm && s.conclusions.Some? then Positive(x, s) else JudgedPositive(x, x.slots[..i], arm)
  {
    assert x.slots[..i + 1][..i] == x.slots[..i];
  }

  /** The slot loop: which arms a judge could find an issue for. */
  method ReadPositives(x: Sealed) returns (ok: bool, a: bool, b: bool)
    requires Completed(x.scores).Keys == {x.baseline, x.treatment}
    ensures ok <==> ArmsMapped(x)
    ensures ok ==> a == JudgedPositive(x, x.slots, x.baseline) && b == JudgedPositive(x, x.slots, x.treatment)
  {
    var completed := ReadScores(x.scores);
    a, b := false, false;
    for i := 0 to |x.slots|
      invariant forall j :: 0 <= j < i ==> x.slots[j].arm == x.baseline || x.slots[j].arm == x.treatment
      invariant a == JudgedPositive(x, x.slots[..i], x.baseline) && b == JudgedPositive(x, x.slots[..i], x.treatment)
    {
      var s := x.slots[i];
      PositiveStep(x, i, x.baseline);
      PositiveStep(x, i, x.treatment);
      if s.arm != x.baseline && s.arm != x.treatment { return false, a, b; }
      if s.conclusions.Some? {
        var positive := completed[s.arm] && ISSUE_PRESENT in s.conclusions.value;
        a, b := if s.arm == x.baseline then positive else a, if s.arm == x.treatment then positive else b;
      }
    }
    assert x.slots[..|x.slots|] == x.slots;
    ok := true;
  }

  /** The integrity flags, gathered over the slots. */
  method ReadIntegrity(slots: seq<Slot>) returns (backend: bool, leakage: bool)
    ensures backend <==> forall s :: s in slots ==> CallClean(s.call)
    ensures leakage <==> forall s :: s in slots ==> LENS_LEAK !in s.codes
  {
    backend, leakage := true, true;
    for i := 0 to |slots|
      invariant backend <==> forall j :: 0 <= j < i ==> CallClean(slots[j].call)
      invariant leakage <==> forall j :: 0 <= j < i ==> LENS_LEAK !in slots[j].codes
    {
      assert slots[i] in slots;
      backend, leakage := backend && CallClean(slots[i].call), leakage && LENS_LEAK !in slots[i].codes;
    }
  }

  /** `_cell`: the score table, then slot by slot what the gates need. */
  method ReadCell(u: Unit, x: Sealed) returns (r: Result<Cell, StageError>)
    ensures r == if ArmsMapped(x) then Success(SealedCell(u, x)) else Failure(ArmMappingInvalid)
  {
    var completed := ReadScores(x.scores);
    if completed.Keys != {x.baseline, x.treatment} { return Failure(ArmMappingInvalid); }
    var mapped, a, b := ReadPositives(x);
    if !mapped { return Failure(ArmMappingInvalid); }
    var backend, leakage := ReadIntegrity(x.slots);
    return Success(Cell(u.unitId, u.repository, if completed[x.baseline] then 1 else 0, if completed[x.treatment] then 1 else 0,
                        backend && CallClean(x.judge), leakage, x.judged && x.judgeScores == 2, a, b));
  }

  // ---- The call rectangle --------------------------------------------------------------------------------

  /** How a unit's run ended. */
  datatype Ended = SealedRun(run: Sealed) | IneligibleRun

  /** `RUN` for one unit. */
  type Runs = Unit -> Result<Ended, StageError>

  function IneligibleCell(u: Unit): Cell {
    Cell(u.unitId, u.repository, 0, 0, true, true, false, false, false)
  }

  predicate IsSealed(runs: Runs, u: Unit) { runs(u).Success? && runs(u).value.SealedRun? }

  /** The unit's run finished, and if it was sealed its arms can be told. */
  predicate HasCell(runs: Runs, u: Unit) { runs(u).Success? && (runs(u).value.SealedRun? ==> ArmsMapped(runs(u).value.run)) }

  function CellFor(runs: Runs, u: Unit): Cell
    requires runs(u).Success?
  {
    if runs(u).value.SealedRun? then SealedCell(u, runs(u).value.run) else IneligibleCell(u)
  }

  function SealedCount(runs: Runs, units: seq<Unit>): nat { Count(units, (u: Unit) => IsSealed(runs, u)) }

  /** `_run_units`: the reviewer is called twice and the judge once for each run that is sealed. */
  method RunUnits(runs: Runs, units: seq<Unit>) returns (r: Result<seq<Cell>, StageError>, reviewerCalls: nat, judgeCalls: nat)
    ensures r.Success? <==> forall u :: u in units ==> HasCell(runs, u)
    ensures r.Success? ==> |r.value| == |units| && forall i :: 0 <= i < |units| ==> HasCell(runs, units[i]) && r.value[i] == CellFor(runs, units[i])
    ensures r.Success? ==> reviewerCalls == 2 * SealedCount(runs, units) && judgeCalls == SealedCount(runs, units)
  {
    var cells: seq<Cell> := [];
    reviewerCalls, judgeCalls := 0, 0;
    for i := 0 to |units|
      invariant forall j :: 0 <= j < i ==> HasCell(runs, units[j])
      invariant |cells| == i && forall j :: 0 <= j < i ==> cells[j] == CellFor(runs, units[j])
      invariant reviewerCalls == 2 * SealedCount(runs, units[..i]) && judgeCalls == SealedCount(runs, units[..i])
    {
      var u := units[i];
      assert u in units;
      var result := runs(u);
      if result.Failure? { return Failure(result.error), reviewerCalls, judgeCalls; }
      SealedCountStep(runs, units, i);
      if result.value.SealedRun? {
        var cell := ReadCell(u, result.value.run);
        if cell.Failure? { return Failure(cell.error), reviewerCalls, judgeCalls; }
        reviewerCalls, judgeCalls := reviewerCalls + 2, judgeCalls + 1;
        cells := cells + [cell.value];
      } else {
        cells := cells + [IneligibleCell(u)];
      }
    }
    assert units[..|units|] == units;
    r := Success(cells);
  }

  lemma SealedCountStep(runs: Runs, units: seq<Unit>, i: nat)
    requires i < |units|
    ensures SealedCount(runs, units[..i + 1]) == SealedCount(runs, units[..i]) + (if IsSealed(runs, units[i]) then 1 else 0)
  {
    CountAppend(units[..i], [units[i]], (u: Unit) => IsSealed(runs, u));
    assert units[..i + 1] == units[..i] + [units[i]];
  }

  /** Whatever the runs were, the cells read from them are binary. */
  lemma CellsAreBinary(runs: Runs, units: seq<Unit>, cells: seq<Cell>)
    requires |cells| == |units| && forall i :: 0 <= i < |units| ==> runs(units[i]).Success? && cells[i] == CellFor(runs, units[i])
    ensures Binary(cells)
  {
  }

  predicate AllSealed(runs: Runs, units: seq<Unit>) { forall u :: u in units ==> IsSealed(runs, u) && HasCell(runs, u) }

  lemma SealedCountIsAll(runs: Runs, units: seq<Unit>)
    ensures SealedCount(runs, units) == |units| <==> forall u :: u in units ==> IsSealed(runs, u)
    ensures SealedCount(runs, units) <= |units|
  {
    AllCount(units, (u: Unit) => IsSealed(runs, u));
  }

  /** Each cell is the one read from its unit's sealed run. */
  ghost predicate CellsOf(runs: Runs, units: seq<Unit>, cells: seq<Cell>) {
    |cells| == |units| && forall i :: 0 <= i < |units| ==> IsSealed(runs, units[i]) && cells[i] == SealedCell(units[i], runs(units[i]).value.run)
  }

  /** The call counts reach the rectangle of `pairs` units exactly when there are that many and
      every one's run was sealed. */
  method RunRectangle(runs: Runs, units: seq<Unit>, pairs: nat) returns (r: Result<seq<Cell>, StageError>)
    requires |units| <= pairs
    ensures r.Success? <==> |units| == pairs && AllSealed(runs, units)
    ensures r.Success? ==> CellsOf(runs, units, r.value) && Binary(r.value)
  {
    var run, reviewer, judge := RunUnits(runs, units);
    SealedCountIsAll(runs, units);
    if run.Failure? { return run; }
    if !(reviewer == 2 * pairs && judge == pairs) { return Failure(CallRectangleInvalid); }
    forall i | 0 <= i < |units| ensures IsSealed(runs, units[i]) {
      assert units[i] in units;
    }
    CellsAreBinary(runs, units, run.value);
    r := run;
  }

  /** `stage1`, after its inputs are authenticated: there is a result exactly when there are ten
      units and every one's run was sealed, and its tables add up. */
  method RunStage1(runs: Runs, units: seq<Unit>, clean: set<string>, stage0Passed: bool)
    returns (r: Result<StageResult, StageError>, ghost cells: seq<Cell>)
    requires |units| <= 10
    ensures r.Success? <==> |units| == 10 && AllSealed(runs, units)
    ensures r.Success? ==> CellsOf(runs, units, cells) && r.value == Reduce(Stage1, cells, clean, stage0Passed, 20, 10)
    ensures r.Success? ==> TablesAddUp(r.value) && Binary(r.value.cells)
  {
    var run := RunRectangle(runs, units, 10);
    if run.Failure? { return Failure(run.error), []; }
    TablesPartition(Stage1, run.value, clean, stage0Passed, 20, 10);
    return Success(Reduce(Stage1, run.value, clean, stage0Passed, 20, 10)), run.value;
  }

  /** `stage2a` on a verified Stage 1 result: thirty more units, reduced together. */
  method RunStage2a(runs: Runs, predecessor: StageResult, units: seq<Unit>, clean: set<string>, stage0Passed: bool)
    returns (r: Result<StageResult, StageError>, ghost added: seq<Cell>)
    requires |units| <= 30
    ensures r.Success? <==> predecessor.decision == Advance && |units| == 30 && AllSealed(runs, units)
    ensures r.Success? ==>
              && CellsOf(runs, units, added)
              && r.value == Reduce(Stage2a, predecessor.cells + added, clean, stage0Passed, predecessor.reviewerCalls + 60, predecessor.judgeCalls + 30)
    ensures r.Success? && Binary(predecessor.cells) ==> TablesAddUp(r.value)
  {
    if predecessor.decision != Advance { return Failure(Stage1NotAdvanced), []; }
    var run := RunRectangle(runs, units, 30);
    if run.Failure? { return Failure(run.error), []; }
    added := run.value;
    if Binary(predecessor.cells) {
      TablesPartition(Stage2a, predecessor.cells + added, clean, stage0Passed, predecessor.reviewerCalls + 60, predecessor.judgeCalls + 30);
    }
    return Success(Reduce(Stage2a, predecessor.cells + run.value, clean, stage0Passed, predecessor.reviewerCalls + 60, predecessor.judgeCalls + 30)),
           run.value;
  }

  /** Stage 2A is cumulative: each of its totals is the Stage 1 total plus the added cells'. */
  lemma Stage2aIsCumulative(first: seq<Cell>, added: seq<Cell>, clean: set<string>, stage0Passed: bool)
    ensures var r1 := Reduce(Stage1, first, clean, stage0Passed, 20, 10);
            var r := Reduce(Stage2a, first + added, clean, stage0Passed, 80, 40);
            && r.n == r1.n + |added|
            && r.n00 == r1.n00 + Count(added, Is00) && r.b == r1.b + Count(added, Is01)
            && r.c == r1.c + Count(added, Is10) && r.n11 == r1.n11 + Count(added, Is11)
  {
    CountAppend(first, added, Is00);
    CountAppend(first, added, Is01);
    CountAppend(first, added, Is10);
    CountAppend(first, added, Is11);
  }
}
