/** Reading a run's directory back (evaluator/artifacts.py `verify_run`), and that every directory a run
    finalizes is accepted. */
module PairedVerify {
  import opened Wrappers
  import opened Ordering
  import opened Grouping
  import opened PairedScore
  import opened PairedRecords
  import opened PairedAudit
  import opened PairedRun
  import A = Artifacts

  /** A JSON artifact, when it is there, parses, and is in canonical form. */
  function JsonAt(env: Env, files: Files, p: RunPath): Option<Record> {
    if p !in files then None else
    match env.parse(files[p])
    case None => None
    case Some(r) => if env.encode(r) == files[p] then Some(r) else None
  }

  const BASE_PATHS: set<RunPath> := {LaunchFile, RepositoryFile, ObligationFile, PairFile, BudgetFile, PacketFile(0), PacketFile(1)}

  function SlotPaths(k: nat): set<RunPath> { {RequestFile(k), ResponseFile(k), RawFile(k), ExecutionFile(k), MechanicalFile(k)} }

  const JUDGE_PATHS: set<RunPath> :=
    {PermutationFile, BatchFile, JudgeRequestFile, JudgeResponseFile, JudgeRawFile, JudgeExecutionFile, UtilityFile, PrimaryFile}

  const OPTIONAL_PATHS: set<RunPath> := {ParsedFile(0), ParsedFile(1), JudgeParsedFile}

  const SEAL_PATHS: set<RunPath> := {LedgerFile, SealFile}

  /** The artifact set each terminal state calls for. */
  predicate PathsFit(paths: set<RunPath>, terminal: string) {
    if terminal == "model_ineligible" then paths == BASE_PATHS
    else terminal == "sealed" && BASE_PATHS + SlotPaths(0) + SlotPaths(1) + JUDGE_PATHS <= paths
         <= BASE_PATHS + SlotPaths(0) + SlotPaths(1) + JUDGE_PATHS + OPTIONAL_PATHS
  }

  function GatherBase(env: Env, files: Files): Option<Records> {
    match (JsonAt(env, files, LaunchFile), JsonAt(env, files, RepositoryFile), JsonAt(env, files, ObligationFile), JsonAt(env, files, PairFile),
           JsonAt(env, files, BudgetFile), JsonAt(env, files, PacketFile(0)), JsonAt(env, files, PacketFile(1)))
    case (Some(LaunchR(l)), Some(ProvenanceR(v)), Some(ObligationR(o)), Some(PairR(m)), Some(BudgetR(b)), Some(PacketR(p)), Some(PacketR(q))) =>
      Some(Records(l, v, o, m, b, p, q, None))
    case _ => None
  }

  function GatherCall(env: Env, files: Files, request: RunPath, response: RunPath, raw: RunPath, execution: RunPath): Option<CallRecord> {
    if raw !in files then None else
    match (JsonAt(env, files, request), JsonAt(env, files, response), JsonAt(env, files, execution))
    case (Some(RequestR(r)), Some(SealedR(s)), Some(ExecutionR(e))) => Some(CallRecord(r, s, files[raw], e))
    case _ => None
  }

  function GatherSlot(env: Env, files: Files, k: nat): Option<SlotRecord> {
    match (GatherCall(env, files, RequestFile(k), ResponseFile(k), RawFile(k), ExecutionFile(k)), JsonAt(env, files, MechanicalFile(k)))
    case (Some(call), Some(MechanicalR(m))) =>
      if ParsedFile(k) !in files then Some(SlotRecord(call, None, m)) else
      (match JsonAt(env, files, ParsedFile(k))
       case Some(ReviewR(review)) => Some(SlotRecord(call, Some(review), m))
       case _ => None)
    case _ => None
  }

  /** The judge's call and the scores, beside the two slots. */
  function GatherScores(env: Env, files: Files, slot0: SlotRecord, slot1: SlotRecord): Option<Scored> {
    match (GatherCall(env, files, JudgeRequestFile, JudgeResponseFile, JudgeRawFile, JudgeExecutionFile), JsonAt(env, files, PermutationFile),
           JsonAt(env, files, BatchFile), JsonAt(env, files, UtilityFile), JsonAt(env, files, PrimaryFile))
    case (Some(call), Some(ReverseR(r)), Some(BatchR(b)), Some(UtilityR(u)), Some(PrimaryR(rows))) =>
      if JudgeParsedFile !in files then Some(Scored(slot0, slot1, r, b, call, None, u, rows)) else
      (match JsonAt(env, files, JudgeParsedFile)
       case Some(JudgementR(j)) => Some(Scored(slot0, slot1, r, b, call, Some(j), u, rows))
       case _ => None)
    case _ => None
  }

  function GatherScored(env: Env, files: Files): Option<Scored> {
    match (GatherSlot(env, files, 0), GatherSlot(env, files, 1))
    case (Some(slot0), Some(slot1)) => GatherScores(env, files, slot0, slot1)
    case _ => None
  }

  /** The records of a directory whose artifact set fits its terminal state. */
  function Gather(env: Env, files: Files, terminal: string): Option<Records> {
    if !PathsFit(files.Keys - SEAL_PATHS, terminal) then None else
    match GatherBase(env, files)
    case None => None
    case Some(base) =>
      if terminal == "model_ineligible" then Some(base) else
      match GatherScored(env, files)
      case None => None
      case Some(x) => Some(base.(scored := Some(x)))
  }

  /** The semantic half of `verify_run`: the records gathered under the seal pass the audit. */
  predicate Replays(env: Env, files: Files, s: A.SealBody) {
    var rs := Gather(env, files, s.terminal);
    rs.Some? && Audit(env, rs.value, s)
  }

  function Replaying(env: Env, files: Files): A.Seal -> bool { (s: A.Seal) => Replays(env, files, s.body) }

  /** What `verify_run` accepts: bytes that close, records that replay. */
  ghost predicate Verifies(env: Env, c: Codec, files: Files) { A.Verifies(c, files, Replaying(env, files)) }

  /** `verify_run`. */
  method VerifyRun(env: Env, c: Codec, files: Files) returns (ok: bool)
    ensures ok <==> Verifies(env, c, files)
  {
    ok := A.VerifyRun(c, files, Replaying(env, files));
  }

  // ---- A finalized directory reads back ------------------------------------------------------------------------------------

  ghost predicate ParsesBack(env: Env) { forall r :: env.parse(env.encode(r)) == Some(r) }

  /** The directory holds each item's bytes, and no other paths than theirs and the seal's. */
  ghost predicate HoldsItems(files: Files, items: seq<Item>) {
    (forall x :: x in items ==> x.path in files && files[x.path] == x.data) && files.Keys - SEAL_PATHS == set x | x in items :: x.path
  }

  lemma ItemReadsBack(env: Env, files: Files, items: seq<Item>, path: RunPath, kind: string, r: Record)
    requires ParsesBack(env) && HoldsItems(files, items) && Json(env, path, kind, r) in items
    ensures JsonAt(env, files, path) == Some(r)
  {
    assert files[path] == env.encode(r);
  }

  /** Records of the base, each where it belongs. */
  predicate BaseInPlace(env: Env, files: Files, rs: Records) {
    && JsonAt(env, files, LaunchFile) == Some(LaunchR(rs.launch)) && JsonAt(env, files, RepositoryFile) == Some(ProvenanceR(rs.provenance))
    && JsonAt(env, files, ObligationFile) == Some(ObligationR(rs.obligation)) && JsonAt(env, files, PairFile) == Some(PairR(rs.pair))
    && JsonAt(env, files, BudgetFile) == Some(BudgetR(rs.budget)) && JsonAt(env, files, PacketFile(0)) == Some(PacketR(rs.packet0))
    && JsonAt(env, files, PacketFile(1)) == Some(PacketR(rs.packet1))
  }

  lemma BaseGathers(env: Env, files: Files, rs: Records)
    requires BaseInPlace(env, files, rs)
    ensures GatherBase(env, files) == Some(rs.(scored := None))
  {}

  lemma BaseReadsBack(env: Env, files: Files, items: seq<Item>, rs: Records)
    requires ParsesBack(env) && HoldsItems(files, items) && Includes(items, BaseItems(env, rs))
    ensures BaseInPlace(env, files, rs)
  {
    var base := BaseItems(env, rs);
    assert base[0] in base && base[1] in base && base[2] in base && base[3] in base && base[4] in base && base[5] in base && base[6] in base;
    ItemReadsBack(env, files, items, LaunchFile, "launch", LaunchR(rs.launch));
    ItemReadsBack(env, files, items, RepositoryFile, "repository", ProvenanceR(rs.provenance));
    ItemReadsBack(env, files, items, ObligationFile, "obligation", ObligationR(rs.obligation));
    ItemReadsBack(env, files, items, PairFile, "run_manifest", PairR(rs.pair));
    ItemReadsBack(env, files, items, BudgetFile, "input_budget_audit", BudgetR(rs.budget));
    ItemReadsBack(env, files, items, PacketFile(0), "packet", PacketR(rs.packet0));
    ItemReadsBack(env, files, items, PacketFile(1), "packet", PacketR(rs.packet1));
  }

  lemma CallReadsBack(env: Env, files: Files, items: seq<Item>, call: CallRecord, request: RunPath, response: RunPath, raw: RunPath, execution: RunPath,
                      kinds: (string, string, string, string))
    requires ParsesBack(env) && HoldsItems(files, items)
    requires Json(env, request, kinds.0, RequestR(call.request)) in items && Json(env, response, kinds.1, SealedR(call.sealed)) in items
    requires Item(raw, kinds.2, call.raw) in items && Json(env, execution, kinds.3, ExecutionR(call.execution)) in items
    ensures GatherCall(env, files, request, response, raw, execution) == Some(call)
  {
    ItemReadsBack(env, files, items, request, kinds.0, RequestR(call.request));
    ItemReadsBack(env, files, items, response, kinds.1, SealedR(call.sealed));
    ItemReadsBack(env, files, items, execution, kinds.3, ExecutionR(call.execution));
  }

  lemma SlotReadsBack(env: Env, files: Files, items: seq<Item>, k: nat, s: SlotRecord)
    requires ParsesBack(env) && HoldsItems(files, items) && Includes(items, SlotItems(env, k, s))
    requires s.parsed == None ==> ParsedFile(k) !in files
    ensures GatherSlot(env, files, k) == Some(s)
  {
    var mine := SlotItems(env, k, s);
    assert mine[0] in mine && mine[1] in mine && mine[2] in mine && mine[3] in mine && mine[|mine| - 1] in mine;
    CallReadsBack(env, files, items, s.call, RequestFile(k), ResponseFile(k), RawFile(k), ExecutionFile(k),
                  ("reviewer_request_envelope", "reviewer_response_envelope", "reviewer_raw", "reviewer_execution"));
    ItemReadsBack(env, files, items, MechanicalFile(k), "mechanical", MechanicalR(s.mechanical));
    if s.parsed.Some? {
      assert mine[4] in mine;
      ItemReadsBack(env, files, items, ParsedFile(k), "reviewer_parsed", ReviewR(s.parsed.value));
    }
  }

  lemma JudgeReadsBack(env: Env, files: Files, items: seq<Item>, x: Scored)
    requires ParsesBack(env) && HoldsItems(files, items) && Includes(items, JudgeItems(env, x))
    ensures GatherCall(env, files, JudgeRequestFile, JudgeResponseFile, JudgeRawFile, JudgeExecutionFile) == Some(x.judge)
    ensures JsonAt(env, files, PermutationFile) == Some(ReverseR(x.permutation)) && JsonAt(env, files, BatchFile) == Some(BatchR(x.batch))
  {
    var call := JudgeItems(env, x);
    assert call[0] in call && call[1] in call && call[2] in call && call[3] in call && call[4] in call && call[5] in call;
    CallReadsBack(env, files, items, x.judge, JudgeRequestFile, JudgeResponseFile, JudgeRawFile, JudgeExecutionFile,
                  ("judge_request_envelope", "judge_response_envelope", "judge_raw", "judge_execution"));
    ItemReadsBack(env, files, items, PermutationFile, "permutation", ReverseR(x.permutation));
    ItemReadsBack(env, files, items, BatchFile, "judge_batch", BatchR(x.batch));
  }

  lemma OutcomeReadsBack(env: Env, files: Files, items: seq<Item>, x: Scored)
    requires ParsesBack(env) && HoldsItems(files, items) && Includes(items, ScoreItems(env, x))
    ensures JsonAt(env, files, UtilityFile) == Some(UtilityR(x.utility)) && JsonAt(env, files, PrimaryFile) == Some(PrimaryR(x.primary))
    ensures x.judgement.Some? ==> JudgeParsedFile in files && JsonAt(env, files, JudgeParsedFile) == Some(JudgementR(x.judgement.value))
  {
    var rest := ScoreItems(env, x);
    assert rest[|rest| - 2] in rest && rest[|rest| - 1] in rest;
    ItemReadsBack(env, files, items, UtilityFile, "utility", UtilityR(x.utility));
    ItemReadsBack(env, files, items, PrimaryFile, "primary", PrimaryR(x.primary));
    if x.judgement.Some? {
      assert rest[0] in rest;
      ItemReadsBack(env, files, items, JudgeParsedFile, "judge_parsed", JudgementR(x.judgement.value));
    }
  }

  lemma ScoresReadBack(env: Env, files: Files, items: seq<Item>, x: Scored)
    requires ParsesBack(env) && HoldsItems(files, items)
    requires Includes(items, JudgeItems(env, x)) && Includes(items, ScoreItems(env, x))
    requires x.judgement == None ==> JudgeParsedFile !in files
    ensures GatherScores(env, files, x.slot0, x.slot1) == Some(x)
  {
    JudgeReadsBack(env, files, items, x);
    OutcomeReadsBack(env, files, items, x);
  }

  // ---- Paths of a run ----------------------------------------------------------------------------------------------------

  function PathsOf(items: seq<Item>): set<RunPath> { set x | x in items :: x.path }

  lemma PathsOfConcat(a: seq<Item>, b: seq<Item>)
    ensures PathsOf(a + b) == PathsOf(a) + PathsOf(b)
  {}

  lemma {:induction false} PathsOfMap(items: seq<Item>)
    ensures forall p :: p in PathsOf(items) <==> p in Map(items, ItemPath)
  {
    MapMembers(items, ItemPath);
  }

  lemma BasePaths(env: Env, rs: Records)
    ensures PathsOf(BaseItems(env, rs)) == BASE_PATHS
  {
    PathsOfMap(BaseItems(env, rs));
    var paths := [LaunchFile, RepositoryFile, ObligationFile, PairFile, BudgetFile, PacketFile(0), PacketFile(1)];
    assert Map(BaseItems(env, rs), ItemPath) == paths;
    assert forall p :: p in paths <==> p in BASE_PATHS;
  }

  lemma SlotPathsOf(env: Env, k: nat, s: SlotRecord)
    ensures PathsOf(SlotItems(env, k, s)) == SlotPaths(k) + (if s.parsed.Some? then {ParsedFile(k)} else {})
  {
    PathsOfMap(SlotItems(env, k, s));
    var front := [RequestFile(k), ResponseFile(k), RawFile(k), ExecutionFile(k)];
    var paths := front + (if s.parsed.Some? then [ParsedFile(k)] else []) + [MechanicalFile(k)];
    assert Map(SlotItems(env, k, s), ItemPath) == paths;
  }

  lemma JudgePathsOf(env: Env, x: Scored)
    ensures PathsOf(JudgeItems(env, x)) + PathsOf(ScoreItems(env, x)) == JUDGE_PATHS + (if x.judgement.Some? then {JudgeParsedFile} else {})
  {
    PathsOfMap(JudgeItems(env, x));
    PathsOfMap(ScoreItems(env, x));
    assert Map(JudgeItems(env, x), ItemPath) == [PermutationFile, BatchFile, JudgeRequestFile, JudgeResponseFile, JudgeRawFile, JudgeExecutionFile];
    assert Map(ScoreItems(env, x), ItemPath) == (if x.judgement.Some? then [JudgeParsedFile] else []) + [UtilityFile, PrimaryFile];
  }

  /** All paths of a scored run. */
  lemma ScoredPaths(env: Env, rs: Records, x: Scored)
    requires rs.scored == Some(x)
    ensures PathsOf(ItemsOf(env, rs)) == BASE_PATHS + PathsOf(SlotItems(env, 0, x.slot0)) + PathsOf(SlotItems(env, 1, x.slot1)) +
                                         (PathsOf(JudgeItems(env, x)) + PathsOf(ScoreItems(env, x)))
  {
    var a, b, c, d, e := BaseItems(env, rs), SlotItems(env, 0, x.slot0), SlotItems(env, 1, x.slot1), JudgeItems(env, x), ScoreItems(env, x);
    BasePaths(env, rs);
    PathsOfConcat(a, b);
    PathsOfConcat(a + b, c);
    PathsOfConcat(a + b + c, d);
    PathsOfConcat(a + b + c + d, e);
  }

  lemma SealedPathsFit(paths: set<RunPath>, a: set<RunPath>, b: set<RunPath>, c: set<RunPath>)
    requires paths == BASE_PATHS + (SlotPaths(0) + a) + (SlotPaths(1) + b) + (JUDGE_PATHS + c)
    requires a <= OPTIONAL_PATHS && b <= OPTIONAL_PATHS && c <= OPTIONAL_PATHS
    ensures PathsFit(paths, "sealed")
  {}

  lemma RunPathsFit(env: Env, rs: Records)
    ensures PathsFit(PathsOf(ItemsOf(env, rs)), TerminalOf(rs))
  {
    BasePaths(env, rs);
    if rs.scored.Some? {
      var x := rs.scored.value;
      ScoredPaths(env, rs, x);
      SlotPathsOf(env, 0, x.slot0);
      SlotPathsOf(env, 1, x.slot1);
      JudgePathsOf(env, x);
      SealedPathsFit(PathsOf(ItemsOf(env, rs)), if x.slot0.parsed.Some? then {ParsedFile(0)} else {}, if x.slot1.parsed.Some? then {ParsedFile(1)} else {},
                     if x.judgement.Some? then {JudgeParsedFile} else {});
    }
  }

  // ---- Every finalized run verifies ----------------------------------------------------------------------------------------

  /** Items of parts below a bound, each path once. */
  ghost predicate ItemsBelow(items: seq<Item>, part: nat) {
    Distinct(Map(items, ItemPath)) && forall x :: x in items ==> PartOf(x.path) < part
  }

  lemma NextPart(a: seq<Item>, b: seq<Item>, part: nat)
    requires ItemsBelow(a, part) && PartItems(b, part)
    ensures ItemsBelow(a + b, part + 1)
  {
    var pa, pb, all := Map(a, ItemPath), Map(b, ItemPath), Map(a + b, ItemPath);
    assert all == pa + pb;
    MapMembers(a, ItemPath);
    MapMembers(b, ItemPath);
    forall i, j | 0 <= i < j < |all| ensures all[i] != all[j] {
      if i < |pa| <= j { assert all[i] in pa && all[j] in pb; }
    }
  }

  lemma PartIsBelow(items: seq<Item>, part: nat, bound: nat)
    requires PartItems(items, part) && part < bound
    ensures ItemsBelow(items, bound)
  {}

  lemma SlotBelow(env: Env, k: nat, slot: SlotRecord, front: seq<Item>)
    requires ItemsBelow(front, 1 + k)
    ensures ItemsBelow(front + SlotItems(env, k, slot), 2 + k)
  {
    SlotIsPart(env, k, slot);
    NextPart(front, SlotItems(env, k, slot), 1 + k);
  }

  lemma BaseBelow(env: Env, rs: Records, base: seq<Item>)
    requires base == BaseItems(env, rs)
    ensures ItemsBelow(base, 1)
  {
    BaseIsPart(env, rs);
    PartIsBelow(base, 0, 1);
  }

  lemma CallItemsBelow(env: Env, x: Scored, base: seq<Item>)
    requires ItemsBelow(base, 1)
    ensures ItemsBelow(base + SlotItems(env, 0, x.slot0) + SlotItems(env, 1, x.slot1), 3)
  {
    SlotBelow(env, 0, x.slot0, base);
    SlotBelow(env, 1, x.slot1, base + SlotItems(env, 0, x.slot0));
  }

  lemma ScoredItemsBelow(env: Env, x: Scored, front: seq<Item>)
    requires ItemsBelow(front, 3)
    ensures ItemsBelow(front + JudgeItems(env, x) + ScoreItems(env, x), 5)
  {
    JudgeIsPart(env, x);
    ScoresArePart(env, x);
    NextPart(front, JudgeItems(env, x), 3);
    NextPart(front + JudgeItems(env, x), ScoreItems(env, x), 4);
  }

  lemma AllItemsBelow(env: Env, x: Scored, base: seq<Item>)
    requires ItemsBelow(base, 1)
    ensures ItemsBelow(base + SlotItems(env, 0, x.slot0) + SlotItems(env, 1, x.slot1) + JudgeItems(env, x) + ScoreItems(env, x), 5)
  {
    CallItemsBelow(env, x, base);
    ScoredItemsBelow(env, x, base + SlotItems(env, 0, x.slot0) + SlotItems(env, 1, x.slot1));
  }

  lemma RunItemsBelow(env: Env, rs: Records)
    ensures ItemsBelow(ItemsOf(env, rs), 5)
  {
    var base := BaseItems(env, rs);
    BaseBelow(env, rs, base);
    if rs.scored.Some? { AllItemsBelow(env, rs.scored.value, base); }
  }

  /** The keys placed are the items' paths, none of them the ledger's or the seal's. */
  lemma PlacedPaths(items: seq<Item>)
    requires ItemsBelow(items, 5)
    ensures Placed(map[], items).Keys == PathsOf(items)
    ensures LedgerFile !in Placed(map[], items) && SealFile !in Placed(map[], items)
  {
    PlacedKeys(map[], items);
    PathsOfMap(items);
    forall p | p in PathsOf(items) ensures p != LedgerFile && p != SealFile {
      var x :| x in items && x.path == p;
      assert PartOf(x.path) < 5;
    }
  }

  lemma PlacedHolds(items: seq<Item>, files: Files, ledger: Bytes, seal: Bytes)
    requires ItemsBelow(items, 5) && files == Placed(map[], items)[LedgerFile := ledger][SealFile := seal]
    ensures HoldsItems(files, items)
  {
    PlacedPaths(items);
    PlacedKeys(map[], items);
    assert files.Keys - SEAL_PATHS == PathsOf(items);
    forall x | x in items ensures x.path in files && files[x.path] == x.data {
      assert x.path in PathsOf(items);
    }
  }

  lemma RunHoldsItems(env: Env, rs: Records, base: Files, files: Files, ledger: Bytes, seal: Bytes)
    requires base == FilesOf(env, rs) && files == base[LedgerFile := ledger][SealFile := seal]
    ensures HoldsItems(files, ItemsOf(env, rs)) && LedgerFile !in base && SealFile !in base
  {
    RunItemsBelow(env, rs);
    PlacedPaths(ItemsOf(env, rs));
    PlacedHolds(ItemsOf(env, rs), files, ledger, seal);
  }

  ghost predicate Includes(items: seq<Item>, some: seq<Item>) { forall y :: y in some ==> y in items }

  lemma ItemsInclude(env: Env, rs: Records)
    ensures Includes(ItemsOf(env, rs), BaseItems(env, rs))
    ensures rs.scored.Some? ==> var x, items := rs.scored.value, ItemsOf(env, rs);
              && Includes(items, SlotItems(env, 0, x.slot0)) && Includes(items, SlotItems(env, 1, x.slot1))
              && Includes(items, JudgeItems(env, x)) && Includes(items, ScoreItems(env, x))
  {
    if rs.scored.Some? {
      var x := rs.scored.value;
      FiveInclude(BaseItems(env, rs), SlotItems(env, 0, x.slot0), SlotItems(env, 1, x.slot1), JudgeItems(env, x), ScoreItems(env, x));
    }
  }

  lemma FiveInclude(a: seq<Item>, b: seq<Item>, c: seq<Item>, d: seq<Item>, e: seq<Item>)
    ensures var all := a + b + c + d + e; Includes(all, a) && Includes(all, b) && Includes(all, c) && Includes(all, d) && Includes(all, e)
  {}

  /** Paths no run leaves out. */
  const FIXED_PATHS: set<RunPath> := BASE_PATHS + SlotPaths(0) + SlotPaths(1) + JUDGE_PATHS

  lemma OptionalIsNotFixed()
    ensures ParsedFile(0) !in FIXED_PATHS && ParsedFile(1) !in FIXED_PATHS && JudgeParsedFile !in FIXED_PATHS
  {}

  lemma Regroup<T>(base: set<T>, s: set<T>, t: set<T>, j: set<T>, a: set<T>, b: set<T>, c: set<T>)
    ensures base + (s + a) + (t + b) + (j + c) == base + s + t + j + a + b + c
  {}

  lemma AbsentUnlessWritten(paths: set<RunPath>, fixed: set<RunPath>, a: set<RunPath>, b: set<RunPath>, c: set<RunPath>)
    requires paths == fixed + a + b + c && ParsedFile(0) !in fixed && ParsedFile(1) !in fixed && JudgeParsedFile !in fixed
    requires a <= {ParsedFile(0)} && b <= {ParsedFile(1)} && c <= {JudgeParsedFile}
    ensures ParsedFile(0) in paths ==> ParsedFile(0) in a
    ensures ParsedFile(1) in paths ==> ParsedFile(1) in b
    ensures JudgeParsedFile in paths ==> JudgeParsedFile in c
  {}

  /** An optional artifact that was not written is not there. */
  lemma OptionalAbsent(env: Env, rs: Records, x: Scored)
    requires rs.scored == Some(x)
    ensures x.slot0.parsed == None ==> ParsedFile(0) !in PathsOf(ItemsOf(env, rs))
    ensures x.slot1.parsed == None ==> ParsedFile(1) !in PathsOf(ItemsOf(env, rs))
    ensures x.judgement == None ==> JudgeParsedFile !in PathsOf(ItemsOf(env, rs))
  {
    ScoredPaths(env, rs, x);
    SlotPathsOf(env, 0, x.slot0);
    SlotPathsOf(env, 1, x.slot1);
    JudgePathsOf(env, x);
    var a, b := if x.slot0.parsed.Some? then {ParsedFile(0)} else {}, if x.slot1.parsed.Some? then {ParsedFile(1)} else {};
    var c := if x.judgement.Some? then {JudgeParsedFile} else {};
    Regroup(BASE_PATHS, SlotPaths(0), SlotPaths(1), JUDGE_PATHS, a, b, c);
    OptionalIsNotFixed();
    AbsentUnlessWritten(PathsOf(ItemsOf(env, rs)), FIXED_PATHS, a, b, c);
  }

  lemma AbsentInFiles(files: Files, items: seq<Item>, p: RunPath)
    requires HoldsItems(files, items) && p !in SEAL_PATHS && p !in PathsOf(items)
    ensures p !in files
  {
    assert p !in files.Keys - SEAL_PATHS;
  }

  ghost predicate OptionalsFit(files: Files, x: Scored) {
    && (x.slot0.parsed == None ==> ParsedFile(0) !in files) && (x.slot1.parsed == None ==> ParsedFile(1) !in files)
    && (x.judgement == None ==> JudgeParsedFile !in files)
  }

  lemma OptionalsDoFit(files: Files, items: seq<Item>, x: Scored)
    requires HoldsItems(files, items)
    requires x.slot0.parsed == None ==> ParsedFile(0) !in PathsOf(items)
    requires x.slot1.parsed == None ==> ParsedFile(1) !in PathsOf(items)
    requires x.judgement == None ==> JudgeParsedFile !in PathsOf(items)
    ensures OptionalsFit(files, x)
  {
    if x.slot0.parsed == None { AbsentInFiles(files, items, ParsedFile(0)); }
    if x.slot1.parsed == None { AbsentInFiles(files, items, ParsedFile(1)); }
    if x.judgement == None { AbsentInFiles(files, items, JudgeParsedFile); }
  }

  lemma GatherScoredFrom(env: Env, files: Files, x: Scored)
    requires GatherSlot(env, files, 0) == Some(x.slot0) && GatherSlot(env, files, 1) == Some(x.slot1)
    requires GatherScores(env, files, x.slot0, x.slot1) == Some(x)
    ensures GatherScored(env, files) == Some(x)
  {}

  lemma SlotsReadBack(env: Env, files: Files, items: seq<Item>, x: Scored)
    requires ParsesBack(env) && HoldsItems(files, items) && OptionalsFit(files, x)
    requires Includes(items, SlotItems(env, 0, x.slot0)) && Includes(items, SlotItems(env, 1, x.slot1))
    ensures GatherSlot(env, files, 0) == Some(x.slot0) && GatherSlot(env, files, 1) == Some(x.slot1)
  {
    SlotReadsBack(env, files, items, 0, x.slot0);
    SlotReadsBack(env, files, items, 1, x.slot1);
  }

  lemma ScoredReadsBack(env: Env, files: Files, items: seq<Item>, x: Scored)
    requires ParsesBack(env) && HoldsItems(files, items) && OptionalsFit(files, x)
    requires Includes(items, SlotItems(env, 0, x.slot0)) && Includes(items, SlotItems(env, 1, x.slot1))
    requires Includes(items, JudgeItems(env, x)) && Includes(items, ScoreItems(env, x))
    ensures GatherScored(env, files) == Some(x)
  {
    SlotsReadBack(env, files, items, x);
    ScoresReadBack(env, files, items, x);
    GatherScoredFrom(env, files, x);
  }

  lemma GatherFrom(env: Env, files: Files, rs: Records)
    requires PathsFit(files.Keys - SEAL_PATHS, TerminalOf(rs)) && GatherBase(env, files) == Some(rs.(scored := None))
    requires rs.scored.Some? ==> GatherScored(env, files) == rs.scored
    ensures Gather(env, files, TerminalOf(rs)) == Some(rs)
  {}

  /** The directory gives back the records it was written from. */
  lemma RunReadsBack(env: Env, files: Files, rs: Records)
    requires ParsesBack(env) && HoldsItems(files, ItemsOf(env, rs))
    ensures Gather(env, files, TerminalOf(rs)) == Some(rs)
  {
    RunPathsFit(env, rs);
    ItemsInclude(env, rs);
    BaseReadsBack(env, files, ItemsOf(env, rs), rs);
    BaseGathers(env, files, rs);
    if rs.scored.Some? {
      OptionalAbsent(env, rs, rs.scored.value);
      OptionalsDoFit(files, ItemsOf(env, rs), rs.scored.value);
      ScoredReadsBack(env, files, ItemsOf(env, rs), rs.scored.value);
    }
    GatherFrom(env, files, rs);
  }

  lemma SealSeals(c: Codec, entries: seq<A.Entry<RunPath>>, execution: string, l: Launch, rs: Records)
    ensures Seals(A.SealFor(c, entries, rs.pair.run, execution, l.stageSha, TerminalOf(rs)).body, l, rs)
  {}

  lemma ReplaysFrom(env: Env, files: Files, rs: Records, seal: A.Seal)
    requires Gather(env, files, seal.body.terminal) == Some(rs) && Audit(env, rs, seal.body)
    ensures Replaying(env, files)(seal)
  {}

  lemma RecordsReplay(env: Env, i: Inputs, t: Transport, rs: Records, files: Files, seal: A.Seal)
    requires Standing(env) && FromStage0(env, i) && ParsesBack(env) && RecordsOf(env, i, t) == Success(rs)
    requires HoldsItems(files, ItemsOf(env, rs)) && Seals(seal.body, i.launch, rs)
    ensures Replaying(env, files)(seal)
  {
    RunReadsBack(env, files, rs);
    EveryRunReplays(env, i, t, rs, seal.body);
    ReplaysFrom(env, files, rs, seal);
  }

  /** A finalized directory holds the records' items and closes under its seal. */
  lemma FinalizedHolds(env: Env, c: Codec, execution: string, l: Launch, rs: Records, seal: A.Seal, files: Files)
    requires A.RoundTrips(c) && c.ledgerPath == LedgerFile && c.sealPath == SealFile
    requires Finalized(c, execution, l.stageSha, rs, FilesOf(env, rs), seal, files)
    ensures HoldsItems(files, ItemsOf(env, rs)) && Seals(seal.body, l, rs)
    ensures Replaying(env, files)(seal) ==> Verifies(env, c, files)
  {
    var base := FilesOf(env, rs);
    var entries :| A.Describes(c, entries, base) && seal == A.SealFor(c, entries, rs.pair.run, execution, l.stageSha, TerminalOf(rs)) &&
                   files == base[LedgerFile := c.ledger(A.LedgerFor(c, entries))][SealFile := c.seal(seal)];
    RunHoldsItems(env, rs, base, files, c.ledger(A.LedgerFor(c, entries)), c.seal(seal));
    A.FinalizedCloses(c, entries, base, rs.pair.run, execution, l.stageSha, TerminalOf(rs));
    SealSeals(c, entries, execution, l, rs);
  }

  /** Replay completeness, to the byte: every directory a run finalizes, sealed or model-ineligible, and
      whatever its transport answered, passes the ledger closure and the semantic replay. */
  lemma EveryFinalizedRunVerifies(env: Env, c: Codec, execution: string, i: Inputs, t: Transport, rs: Records, seal: A.Seal, files: Files)
    requires Standing(env) && FromStage0(env, i) && ParsesBack(env) && A.RoundTrips(c) && c.ledgerPath == LedgerFile && c.sealPath == SealFile
    requires RecordsOf(env, i, t) == Success(rs) && Finalized(c, execution, i.launch.stageSha, rs, FilesOf(env, rs), seal, files)
    ensures Verifies(env, c, files)
  {
    FinalizedHolds(env, c, execution, i.launch, rs, seal, files);
    RecordsReplay(env, i, t, rs, files, seal);
  }
}
