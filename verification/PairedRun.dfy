/** A paired run on disk: `RUN` writing through the create-only sink, and `verify_run` reading the
    directory back (evaluator/pipeline.py, evaluator/artifacts.py). */
module PairedRun {
  import opened Wrappers
  import opened Ordering
  import opened Grouping
  import opened PairedArms
  import opened PairedPackets
  import opened PairedScore
  import opened PairedBlinding
  import opened PairedRecords
  import opened PairedAudit
  import WB = WindowBytes
  import F = FrozenObligation
  import A = Artifacts

  /** The relative paths of a run; slots are 0 and 1. */
  datatype RunPath =
    | LaunchFile | RepositoryFile | ObligationFile | PairFile | BudgetFile | PacketFile(slot: nat)
    | RequestFile(slot: nat) | ResponseFile(slot: nat) | RawFile(slot: nat) | ExecutionFile(slot: nat) | ParsedFile(slot: nat) | MechanicalFile(slot: nat)
    | PermutationFile | BatchFile | JudgeRequestFile | JudgeResponseFile | JudgeRawFile | JudgeExecutionFile | JudgeParsedFile | UtilityFile | PrimaryFile
    | LedgerFile | SealFile

  type Files = map<RunPath, Bytes>
  type Codec = A.Codec<RunPath>

  /** One artifact to write. */
  datatype Item = Item(path: RunPath, kind: string, data: Bytes)

  function ItemPath(x: Item): RunPath { x.path }

  function Json(env: Env, path: RunPath, kind: string, r: Record): Item { Item(path, kind, env.encode(r)) }

  /** The artifacts of a run in the order it writes them, part by part. */
  function BaseItems(env: Env, rs: Records): seq<Item> {
    [Json(env, LaunchFile, "launch", LaunchR(rs.launch)), Json(env, RepositoryFile, "repository", ProvenanceR(rs.provenance)),
     Json(env, ObligationFile, "obligation", ObligationR(rs.obligation)), Json(env, PairFile, "run_manifest", PairR(rs.pair)),
     Json(env, BudgetFile, "input_budget_audit", BudgetR(rs.budget)), Json(env, PacketFile(0), "packet", PacketR(rs.packet0)),
     Json(env, PacketFile(1), "packet", PacketR(rs.packet1))]
  }

  function SlotItems(env: Env, k: nat, s: SlotRecord): seq<Item> {
    [Json(env, RequestFile(k), "reviewer_request_envelope", RequestR(s.call.request)),
     Json(env, ResponseFile(k), "reviewer_response_envelope", SealedR(s.call.sealed)), Item(RawFile(k), "reviewer_raw", s.call.raw),
     Json(env, ExecutionFile(k), "reviewer_execution", ExecutionR(s.call.execution))] +
    (if s.parsed.Some? then [Json(env, ParsedFile(k), "reviewer_parsed", ReviewR(s.parsed.value))] else []) +
    [Json(env, MechanicalFile(k), "mechanical", MechanicalR(s.mechanical))]
  }

  function JudgeItems(env: Env, x: Scored): seq<Item> {
    [Json(env, PermutationFile, "permutation", ReverseR(x.permutation)), Json(env, BatchFile, "judge_batch", BatchR(x.batch)),
     Json(env, JudgeRequestFile, "judge_request_envelope", RequestR(x.judge.request)),
     Json(env, JudgeResponseFile, "judge_response_envelope", SealedR(x.judge.sealed)), Item(JudgeRawFile, "judge_raw", x.judge.raw),
     Json(env, JudgeExecutionFile, "judge_execution", ExecutionR(x.judge.execution))]
  }

  function ScoreItems(env: Env, x: Scored): seq<Item> {
    (if x.judgement.Some? then [Json(env, JudgeParsedFile, "judge_parsed", JudgementR(x.judgement.value))] else []) +
    [Json(env, UtilityFile, "utility", UtilityR(x.utility)), Json(env, PrimaryFile, "primary", PrimaryR(x.primary))]
  }

  function ItemsOf(env: Env, rs: Records): seq<Item> {
    match rs.scored
    case None => BaseItems(env, rs)
    case Some(x) => BaseItems(env, rs) + SlotItems(env, 0, x.slot0) + SlotItems(env, 1, x.slot1) + JudgeItems(env, x) + ScoreItems(env, x)
  }

  function Placed(files: Files, items: seq<Item>): Files {
    if items == [] then files else
    var n := |items| - 1;
    Placed(files, items[..n])[items[n].path := items[n].data]
  }

  /** The directory of a run before its ledger and seal. */
  function FilesOf(env: Env, rs: Records): Files { Placed(map[], ItemsOf(env, rs)) }

  // ---- Paths are new ---------------------------------------------------------------------------------------------------

  /** The part of the run a path belongs to: inputs, one slot or the other, the judge's call, the scores, the seal. */
  function PartOf(p: RunPath): nat {
    match p
    case LaunchFile => 0 case RepositoryFile => 0 case ObligationFile => 0 case PairFile => 0 case BudgetFile => 0 case PacketFile(_) => 0
    case RequestFile(k) => 1 + k case ResponseFile(k) => 1 + k case RawFile(k) => 1 + k case ExecutionFile(k) => 1 + k
    case ParsedFile(k) => 1 + k case MechanicalFile(k) => 1 + k
    case JudgeParsedFile => 4 case UtilityFile => 4 case PrimaryFile => 4
    case LedgerFile => 5 case SealFile => 5
    case _ => 3
  }

  /** Items of one part, each path once. */
  ghost predicate PartItems(items: seq<Item>, part: nat) {
    Distinct(Map(items, ItemPath)) && forall x :: x in items ==> PartOf(x.path) == part
  }

  ghost predicate Before(files: Files, part: nat) { forall p :: p in files ==> PartOf(p) < part }

  lemma BaseIsPart(env: Env, rs: Records)
    ensures PartItems(BaseItems(env, rs), 0)
  {}

  lemma SlotIsPart(env: Env, k: nat, s: SlotRecord)
    ensures PartItems(SlotItems(env, k, s), 1 + k)
  {}

  lemma JudgeIsPart(env: Env, x: Scored)
    ensures PartItems(JudgeItems(env, x), 3)
  {}

  lemma ScoresArePart(env: Env, x: Scored)
    ensures PartItems(ScoreItems(env, x), 4)
  {}

  lemma {:induction false} PlacedKeys(files: Files, items: seq<Item>)
    ensures forall p :: p in Placed(files, items) <==> p in files || p in Map(items, ItemPath)
    ensures forall p :: p in files && p !in Map(items, ItemPath) ==> Placed(files, items)[p] == files[p]
    ensures Distinct(Map(items, ItemPath)) ==> forall x :: x in items ==> Placed(files, items)[x.path] == x.data
  {
    if items != [] {
      var n := |items| - 1;
      PlacedKeys(files, items[..n]);
      assert items == items[..n] + [items[n]];
      assert Map(items, ItemPath) == Map(items[..n], ItemPath) + [items[n].path];
      forall x | x in items && Distinct(Map(items, ItemPath)) ensures x.path in Placed(files, items) && Placed(files, items)[x.path] == x.data {
        if x in items[..n] {
          var i :| 0 <= i < n && items[..n][i] == x;
          assert Map(items, ItemPath)[i] == x.path && Map(items, ItemPath)[n] == items[n].path;
          assert Distinct(Map(items[..n], ItemPath));
          MapHolds(items[..n], ItemPath, x);
        }
      }
    }
  }

  lemma {:induction false} PlacedTwice(files: Files, a: seq<Item>, b: seq<Item>)
    ensures Placed(Placed(files, a), b) == Placed(files, a + b)
    decreases |b|
  {
    if b == [] {
      assert a + b == a;
    } else {
      var n := |b| - 1;
      PlacedTwice(files, a, b[..n]);
      assert (a + b)[..|a + b| - 1] == a + b[..n];
    }
  }

  // ---- Writing ---------------------------------------------------------------------------------------------------------

  /** Writes in order; every path is new. */
  method WriteAll(items: seq<Item>, part: nat, sink: A.ArtifactSink<RunPath>)
    requires sink.Valid() && PartItems(items, part) && Before(sink.files, part)
    modifies sink
    ensures sink.Valid() && sink.files == Placed(old(sink.files), items) && Before(sink.files, part + 1)
  {
    ghost var start := sink.files;
    for i := 0 to |items|
      invariant sink.Valid() && sink.files == Placed(start, items[..i])
    {
      assert items[..i + 1][..i] == items[..i];
      PathIsNew(start, items, i, part);
      var ok := sink.Write(items[i].path, items[i].data, items[i].kind);
    }
    assert items[..|items|] == items;
    PlacedKeys(start, items);
    MapMembers(items, ItemPath);
  }

  lemma PathIsNew(start: Files, items: seq<Item>, i: nat, part: nat)
    requires PartItems(items, part) && Before(start, part) && i < |items|
    ensures items[i].path !in Placed(start, items[..i])
  {
    PlacedKeys(start, items[..i]);
    assert items[i] in items;
    var paths, front := Map(items, ItemPath), Map(items[..i], ItemPath);
    assert front == paths[..i];
    forall j | 0 <= j < i ensures front[j] != paths[i] { assert front[j] == paths[j]; }
  }

  // ---- The run, step by step --------------------------------------------------------------------------------------------

  method AdmitPacket(env: Env, p: Packet) returns (refusal: Option<RunError>)
    ensures refusal == PacketRefusal(env, p)
  {
    if env.lens(p) { return Some(LensLeak); }
    var failures := ValidateClosure(env.n, p);
    if failures != {} { return Some(PayloadClosureInvalid); }
    return None;
  }

  method BuildArms(env: Env, i: Inputs, o: F.Obligation, account: WB.Account) returns (r: Result<(Arm, Arm), RunError>)
    ensures r == ArmsOf(env, i, o, account)
  {
    var task := env.task(i.launch.unit);
    var a := BuildArm(env.n, i.blobs, account.core, [], CoreProjection(env, i.launch.unit, account.core), task, ArmA(env, task), env.baselineScope(task));
    if a.Failure? { return Failure(DuplicateSource); }
    var b := BuildArm(env.n, i.blobs, account.treatment, o.references, ObligationProjection(env, o), task, ArmB(env, task), o.scope);
    if b.Failure? { return Failure(DuplicateSource); }
    return Success((a.value, b.value));
  }

  method AccountPair(env: Env, i: Inputs, o: F.Obligation) returns (r: Result<WB.Account, RunError>)
    ensures r == AccountFor(env, i, o)
  {
    var callee := F.CalleeSpec(env.names, o);
    if callee == None { return Failure(CalleeInvalid); }
    var account := WB.PacketAccount(i.blobs, env.names, i.baseline, callee.value, o.sources);
    if account.Failure? { return Failure(PlanConflict); }
    if account.value.core == [] { return Failure(BaselineEmpty); }
    return Success(account.value);
  }

  /** Arms, opportunity, packets and slot order: everything before the sink opens. */
  method PreparePair(env: Env, i: Inputs, o: F.Obligation) returns (r: Result<Prepared, RunError>)
    ensures r == Prepare(env, i, o)
  {
    var account := AccountPair(env, i, o);
    if account.Failure? { return Failure(account.error); }
    var arms := BuildArms(env, i, o, account.value);
    if arms.Failure? { return Failure(arms.error); }
    var p := AssemblePair(env, i, o, account.value, arms.value);
    var refusal := AdmitPacket(env, p.a.packet);
    if refusal.Some? { return Failure(refusal.value); }
    refusal := AdmitPacket(env, p.b.packet);
    if refusal.Some? { return Failure(refusal.value); }
    return Success(p);
  }

  method AssemblePair(env: Env, i: Inputs, o: F.Obligation, account: WB.Account, arms: (Arm, Arm)) returns (p: Prepared)
    ensures p == PreparedFrom(env, i, o, account, arms)
  {
    var task := env.task(i.launch.unit);
    var opportunity, a, b := Compare(arms.0, arms.1);
    return Prepared(task, Side(arms.0.id, PacketOf(env.n, a, task), ViewOf(env, o, arms.0.hidden, task)),
                    Side(arms.1.id, PacketOf(env.n, b, task), ViewOf(env, o, arms.1.hidden, task)), opportunity,
                    (account.coreBytes, account.treatmentBytes), env.slotBit(i.launch.unit));
  }

  /** One slot: decode, score mechanically, record. */
  method ScoreSlot(env: Env, unit: string, o: Opportunity, s: Side, call: Call) returns (record: SlotRecord)
    ensures record == SlotOf(env, unit, o, s, call)
  {
    var (decoded, codes) := ReviewIn(env, call.reply, s.packet);
    var mechanical := ScoreMechanically(env.h, env.norm, s.packet, s.arm, o, call.reply, decoded, codes, unit, s.view.sha);
    return SlotRecord(CallOf(env, call, ShaOf(decoded)), ValueOf(decoded), mechanical);
  }

  /** The blind batch judged, and the primary scores. */
  method ScorePair(env: Env, unit: string, p: Prepared, call0: Call, call1: Call, slot0: SlotRecord, slot1: SlotRecord, seats: seq<Seat>,
                   batch: Batch, judgeCall: Call)
    returns (x: Scored)
    requires slot0 == SlotOf(env, unit, p.opportunity, First(p), call0) && slot1 == SlotOf(env, unit, p.opportunity, Second(p), call1)
    requires seats == SeatsOf(env, unit, p, call0, call1) && batch == BatchFor(env, p, seats)
    ensures x == ScoredOf(env, unit, p, call0, call1, judgeCall)
  {
    var reverse := ReverseFor(batch, seats);
    var decoded := JudgementIn(env, judgeCall.reply, batch);
    var utility := ScoreUtility(batch, reverse, ValueOf(decoded), NoAnswer(judgeCall.reply));
    var primary := ScorePrimary(env.h, [slot0.mechanical, slot1.mechanical], utility);
    return Scored(slot0, slot1, reverse, batch, CallOf(env, judgeCall, ShaOf(decoded)), ValueOf(decoded), utility, primary);
  }

  /** The directory of a finalized run, its ledger and its seal. */
  ghost predicate Finalized(c: Codec, execution: string, stage: string, rs: Records, base: Files, seal: A.Seal, files: Files) {
    exists entries :: A.Describes(c, entries, base) && seal == A.SealFor(c, entries, rs.pair.run, execution, stage, TerminalOf(rs)) &&
                      files == base[LedgerFile := c.ledger(A.LedgerFor(c, entries))][SealFile := c.seal(seal)]
  }

  method Seal(c: Codec, execution: string, stage: string, rs: Records, sink: A.ArtifactSink<RunPath>) returns (seal: A.Seal)
    requires sink.Valid() && sink.codec == c && c.ledgerPath == LedgerFile && c.sealPath == SealFile && Before(sink.files, 5)
    modifies sink
    ensures Finalized(c, execution, stage, rs, old(sink.files), seal, sink.files)
  {
    ghost var entries, base := sink.entries, sink.files;
    var sealed := sink.Finalize(execution, stage, rs.pair.run, TerminalOf(rs));
    return sealed.value;
  }

  /** One reviewer call: its envelopes checked, its reply scored, its artifacts written. */
  method RunSlot(env: Env, unit: string, o: Opportunity, s: Side, k: nat, call: Call, sink: A.ArtifactSink<RunPath>) returns (r: Result<SlotRecord, RunError>)
    requires sink.Valid() && Before(sink.files, 1 + k)
    modifies sink
    ensures r == if BackendAgrees(env, call, ReviewRequest(env, s.packet)) then Success(SlotOf(env, unit, o, s, call)) else Failure(BackendMismatch)
    ensures r.Success? ==> sink.Valid() && sink.files == Placed(old(sink.files), SlotItems(env, k, r.value)) && Before(sink.files, 2 + k)
  {
    if !BackendAgrees(env, call, ReviewRequest(env, s.packet)) { return Failure(BackendMismatch); }
    var slot := ScoreSlot(env, unit, o, s, call);
    SlotIsPart(env, k, slot);
    WriteAll(SlotItems(env, k, slot), 1 + k, sink);
    return Success(slot);
  }

  /** The judge's artifacts, then the scores'. */
  method WriteScores(env: Env, x: Scored, sink: A.ArtifactSink<RunPath>)
    requires sink.Valid() && Before(sink.files, 3)
    modifies sink
    ensures sink.Valid() && sink.files == Placed(Placed(old(sink.files), JudgeItems(env, x)), ScoreItems(env, x)) && Before(sink.files, 5)
  {
    JudgeIsPart(env, x);
    WriteAll(JudgeItems(env, x), 3, sink);
    ScoresArePart(env, x);
    WriteAll(ScoreItems(env, x), 4, sink);
  }

  /** The batch, the judge's call on it and the scores. */
  method RunJudge(env: Env, unit: string, p: Prepared, call0: Call, call1: Call, slot0: SlotRecord, slot1: SlotRecord, seats: seq<Seat>, judgeCall: Call,
                  sink: A.ArtifactSink<RunPath>) returns (r: Result<Scored, RunError>)
    requires slot0 == SlotOf(env, unit, p.opportunity, First(p), call0) && slot1 == SlotOf(env, unit, p.opportunity, Second(p), call1)
    requires seats == SeatsOf(env, unit, p, call0, call1) && sink.Valid() && Before(sink.files, 3)
    modifies sink
    ensures r == if BackendAgrees(env, judgeCall, JudgeRequest(env, BatchFor(env, p, seats))) then Success(ScoredOf(env, unit, p, call0, call1, judgeCall))
                 else Failure(BackendMismatch)
    ensures r.Success? ==> sink.Valid() && sink.files == Placed(Placed(old(sink.files), JudgeItems(env, r.value)), ScoreItems(env, r.value))
    ensures r.Success? ==> Before(sink.files, 5) && r.value.slot0 == slot0 && r.value.slot1 == slot1
  {
    var batch := BatchFor(env, p, seats);
    if !BackendAgrees(env, judgeCall, JudgeRequest(env, batch)) { return Failure(BackendMismatch); }
    var x := ScorePair(env, unit, p, call0, call1, slot0, slot1, seats, batch, judgeCall);
    WriteScores(env, x, sink);
    return Success(x);
  }

  /** The three model calls and the scores, as the transport answers. */
  method RunScored(env: Env, i: Inputs, t: Transport, p: Prepared, base: Records, sink: A.ArtifactSink<RunPath>) returns (r: Result<Records, RunError>)
    requires sink.Valid() && sink.files == Placed(map[], BaseItems(env, base)) && Before(sink.files, 1) && base.scored == None
    modifies sink
    ensures r == ScoredRecords(env, i, t, p, base)
    ensures r.Success? ==> sink.Valid() && sink.files == FilesOf(env, r.value) && Before(sink.files, 5)
  {
    var call0 := t.review(First(p).packet, 0);
    var slot0 := RunSlot(env, i.launch.unit, p.opportunity, First(p), 0, call0, sink);
    if slot0.Failure? { return Failure(slot0.error); }
    var call1 := t.review(Second(p).packet, 1);
    var slot1 := RunSlot(env, i.launch.unit, p.opportunity, Second(p), 1, call1, sink);
    if slot1.Failure? { return Failure(slot1.error); }
    var seats := SeatsOf(env, i.launch.unit, p, call0, call1);
    var judgeCall := t.judge(BatchFor(env, p, seats));
    var scored := RunJudge(env, i.launch.unit, p, call0, call1, slot0.value, slot1.value, seats, judgeCall, sink);
    if scored.Failure? { return Failure(scored.error); }
    PlacedParts(env, base, base.(scored := Some(scored.value)), scored.value, sink.files);
    return Success(base.(scored := Some(scored.value)));
  }

  lemma PlacedParts(env: Env, base: Records, rs: Records, x: Scored, files: Files)
    requires rs == base.(scored := Some(x))
    requires files == Placed(Placed(Placed(Placed(Placed(map[], BaseItems(env, base)), SlotItems(env, 0, x.slot0)), SlotItems(env, 1, x.slot1)),
                                    JudgeItems(env, x)), ScoreItems(env, x))
    ensures files == FilesOf(env, rs)
  {
    assert BaseItems(env, rs) == BaseItems(env, base);
    FivePlaced(BaseItems(env, rs), SlotItems(env, 0, x.slot0), SlotItems(env, 1, x.slot1), JudgeItems(env, x), ScoreItems(env, x));
  }

  lemma FivePlaced(a: seq<Item>, b: seq<Item>, c: seq<Item>, d: seq<Item>, e: seq<Item>)
    ensures Placed(Placed(Placed(Placed(Placed(map[], a), b), c), d), e) == Placed(map[], a + b + c + d + e)
  {
    PlacedTwice(map[], a, b);
    PlacedTwice(map[], a + b, c);
    PlacedTwice(map[], a + b + c, d);
    PlacedTwice(map[], a + b + c + d, e);
  }

  /** A prepared pair: its inputs written, its calls made and scored unless it is over the ceiling, sealed. */
  method RunPrepared(env: Env, c: Codec, execution: string, i: Inputs, t: Transport, p: Prepared, base: Records, sink: A.ArtifactSink<RunPath>)
    returns (r: Result<A.Seal, RunError>, ghost rs: Records)
    requires sink.Valid() && sink.codec == c && sink.files == map[] && c.ledgerPath == LedgerFile && c.sealPath == SealFile && base.scored == None
    modifies sink
    ensures var made := if base.budget.eligible then ScoredRecords(env, i, t, p, base) else Success(base);
            if r.Failure? then made == Failure(r.error) else made == Success(rs)
    ensures r.Success? ==> Finalized(c, execution, i.launch.stageSha, rs, FilesOf(env, rs), r.value, sink.files)
  {
    BaseIsPart(env, base);
    WriteAll(BaseItems(env, base), 0, sink);
    var done := base;
    if base.budget.eligible {
      var scored := RunScored(env, i, t, p, base, sink);
      if scored.Failure? { return Failure(scored.error), base; }
      done := scored.value;
    }
    rs := done;
    var seal := Seal(c, execution, i.launch.stageSha, done, sink);
    r := Success(seal);
  }

  /** `RUN`: authenticate, prepare, write the inputs, call and score unless over the ceiling, seal. */
  method Run(env: Env, c: Codec, execution: string, i: Inputs, t: Transport) returns (r: Result<A.Seal, RunError>, sink: A.ArtifactSink<RunPath>)
    requires c.ledgerPath == LedgerFile && c.sealPath == SealFile
    ensures fresh(sink)
    ensures match RecordsOf(env, i, t)
            case Failure(e) => r == Failure(e)
            case Success(rs) => r.Success? && Finalized(c, execution, i.launch.stageSha, rs, FilesOf(env, rs), r.value, sink.files)
  {
    sink := new A.ArtifactSink<RunPath>(c);
    if !LaunchValid(i.launch) { return Failure(LaunchInvalid), sink; }
    var o := ReadObligation(env, i);
    if o.Failure? { return Failure(o.error), sink; }
    var p := PreparePair(env, i, o.value);
    if p.Failure? { return Failure(p.error), sink; }
    ghost var rs;
    r, rs := RunPrepared(env, c, execution, i, t, p.value, BaseRecords(env, i, o.value, p.value), sink);
  }
}
