/** The records of one paired run, as functions of its inputs and of what the transport answers
    (evaluator/pipeline.py `RUN`). */
module PairedRecords {
  import opened Wrappers
  import opened Ordering
  import opened Grouping
  import opened PairedArms
  import opened PairedPackets
  import opened PairedScore
  import opened PairedBlinding
  import P = SourcePayload
  import W = WindowAlgebra
  import WB = WindowBytes
  import F = FrozenObligation
  import C = ContextProjection

  type Bytes = seq<P.Byte>

  datatype Launch = Launch(unit: string, root: string, base: string, head: string, obligationSha: string, stageSha: string)
  datatype Provenance = Provenance(root: string, base: string, head: string)
  datatype ArmView = ArmView(arm: string, view: View)
  datatype PairManifest = PairManifest(run: string, task: string, unit: string, projection: string, slotMap: seq<string>, opportunity: Opportunity,
                                       arms: seq<ArmView>)

  // ---- Calls to the backend -----------------------------------------------------------------------------------

  datatype Subject = OfPacket(packet: Packet) | OfBatch(batch: Batch)
  datatype RequestBody = RequestBody(kind: string, subject: Subject, instruction: Option<string>, tokens: int, timeout: int)
  datatype Request = Request(body: RequestBody, seal: string)
  datatype Usage = Usage(input: Option<int>, output: Option<int>, cache: Option<int>)
  datatype Response = Response(requestSeal: string, tokens: int, timeout: int, finish: string, usage: Usage, raw: Bytes)
  datatype Sealed = Sealed(hmac: string, bytes: Bytes)

  /** What one call brings back. */
  datatype Call = Call(reply: Reply, request: Request, response: Response, hmac: string)

  datatype Tokens = Observed(input: Option<int>, output: Option<int>, cache: Option<int>) | NoTokens(reason: string)
  datatype Execution = Execution(exit: int, timeout: bool, clientTruncated: bool, providerTruncated: bool, tokens: Tokens, tools: seq<string>,
                                 raw: string, parsed: Option<string>, present: bool)

  datatype CallRecord = CallRecord(request: Request, sealed: Sealed, raw: Bytes, execution: Execution)
  datatype SlotRecord = SlotRecord(call: CallRecord, parsed: Option<Review>, mechanical: Mechanical)
  datatype Scored = Scored(slot0: SlotRecord, slot1: SlotRecord, permutation: Reverse, batch: Batch, judge: CallRecord, judgement: Option<Judgement>,
                           utility: Utility, primary: seq<PrimaryScore>)

  datatype Records = Records(launch: Launch, provenance: Provenance, obligation: F.Obligation, pair: PairManifest, budget: Budget, packet0: Packet,
                             packet1: Packet, scored: Option<Scored>)

  /** One JSON artifact. */
  datatype Record =
    | LaunchR(launch: Launch) | ProvenanceR(provenance: Provenance) | ObligationR(obligation: F.Obligation) | PairR(pair: PairManifest)
    | BudgetR(budget: Budget) | PacketR(packet: Packet) | RequestR(request: Request) | SealedR(sealed: Sealed) | ExecutionR(execution: Execution)
    | ReviewR(review: Review) | MechanicalR(mechanical: Mechanical) | ReverseR(reverse: Reverse) | BatchR(batch: Batch)
    | JudgementR(judgement: Judgement) | UtilityR(utility: Utility) | PrimaryR(primary: seq<PrimaryScore>)

  datatype RunError =
    | LaunchInvalid
    | AuthenticatedHashMismatch
    | AuthenticatedJsonInvalid
    | ObligationInvalid
    | CalleeInvalid
    | PlanConflict
    | BaselineEmpty
    | DuplicateSource
    | LensLeak
    | PayloadClosureInvalid
    | BackendMismatch

  /** Everything a run takes as given: hashes, encodings, library functions and the registered seeds. */
  datatype Env = Env(
    n: Names, h: ScoreNames, names: W.Naming, norm: Normalizer, lens: Packet -> bool, production: F.PathRule, valid: F.PathRule, c: C.Hashes,
    task: string -> string, arm: (string, string) -> string, baselineProjection: string -> string, projectionHash: (string, seq<string>) -> string,
    projectionObstruction: string -> string, baselineScope: string -> string, run: (string, string, string) -> string,
    requestSeal: RequestBody -> string, hmacOk: (Bytes, string) -> bool, encode: Record -> Bytes, parse: Bytes -> Option<Record>,
    encodeResponse: Response -> Bytes, parseResponse: Bytes -> Option<Response>, parseReview: Bytes -> Result<Review, Code>, reviewSha: Review -> string,
    parseJudgement: Bytes -> Result<Judgement, Code>, judgementSha: Judgement -> string, slotBit: string -> bool, judgeBit: string -> bool,
    instruction: string, resolve: string -> string)

  /** What a run is launched on. */
  datatype Inputs = Inputs(launch: Launch, rawObligation: Bytes, blobs: W.Blobs, baseline: seq<W.Spec>)

  /** The model transport: a reviewer call per slot, and a judge call. */
  datatype Transport = Transport(review: (Packet, nat) -> Call, judge: Batch -> Call)

  predicate LaunchValid(l: Launch) {
    l.unit != "" && l.root != "" && l.base != "" && l.head != "" && l.obligationSha != "" && l.stageSha != ""
  }

  // ---- Preparation ------------------------------------------------------------------------------------------------

  function ViewOf(env: Env, o: F.Obligation, hidden: seq<HiddenLoss>, task: string): View {
    var body := ViewBody(task, o.obligations, o.relations, o.pairs, o.subjectWindows, o.projection.canonical, Sort(hidden, HiddenLe));
    View(body, env.h.view(body))
  }

  predicate HiddenLe(a: HiddenLoss, b: HiddenLoss) { TextLe(a.id, b.id) }
  predicate ArmViewLe(a: ArmView, b: ArmView) { TextLe(a.arm, b.arm) }

  /** The baseline's projection: its hash is the hash of its own ids. */
  function CoreProjection(env: Env, unit: string, core: seq<W.Spec>): Projected {
    var id := env.baselineProjection(unit);
    var hash := env.projectionHash(id, Sort(Map(core, F.SpecIdOf), TextLe));
    Projected(hash, hash, env.projectionObstruction(hash))
  }

  function ObligationProjection(env: Env, o: F.Obligation): Projected {
    Projected(o.projection.canonical, env.c.body(o.projection.body), env.projectionObstruction(o.projection.canonical))
  }

  /** A pair ready to run: its sides, A the baseline and B the treatment. */
  datatype Prepared = Prepared(task: string, a: Side, b: Side, opportunity: Opportunity, counts: (int, int), swapped: bool)

  function ArmA(env: Env, task: string): string { env.arm(task, "baseline_diff") }
  function ArmB(env: Env, task: string): string { env.arm(task, "subject_windows") }

  /** The two arms before their losses are flagged. */
  function ArmsOf(env: Env, i: Inputs, o: F.Obligation, account: WB.Account): Result<(Arm, Arm), RunError> {
    var task := env.task(i.launch.unit);
    match ArmOf(env.n, i.blobs, account.core, [], CoreProjection(env, i.launch.unit, account.core), task, ArmA(env, task), env.baselineScope(task))
    case Failure(_) => Failure(DuplicateSource)
    case Success(a) =>
      match ArmOf(env.n, i.blobs, account.treatment, o.references, ObligationProjection(env, o), task, ArmB(env, task), o.scope)
      case Failure(_) => Failure(DuplicateSource)
      case Success(b) => Success((a, b))
  }

  function PreparedFrom(env: Env, i: Inputs, o: F.Obligation, account: WB.Account, arms: (Arm, Arm)): Prepared {
    var task := env.task(i.launch.unit);
    var packets := PacketPair(env.n, arms.0, arms.1, task);
    Prepared(task, Side(arms.0.id, packets.0, ViewOf(env, o, arms.0.hidden, task)), Side(arms.1.id, packets.1, ViewOf(env, o, arms.1.hidden, task)),
             OpportunityOf(arms.0, arms.1), (account.coreBytes, account.treatmentBytes), env.slotBit(i.launch.unit))
  }

  /** The lens and closure checks a packet passes before it is used. */
  function PacketRefusal(env: Env, p: Packet): Option<RunError> {
    if env.lens(p) then Some(LensLeak) else if !Closed(env.n, p) then Some(PayloadClosureInvalid) else None
  }

  function AccountFor(env: Env, i: Inputs, o: F.Obligation): Result<WB.Account, RunError> {
    var callee := F.CalleeSpec(env.names, o);
    if callee == None then Failure(CalleeInvalid) else
    match WB.AccountOf(i.blobs, env.names, i.baseline, callee.value, o.sources)
    case Failure(_) => Failure(PlanConflict)
    case Success(account) => if account.core == [] then Failure(BaselineEmpty) else Success(account)
  }

  function Prepare(env: Env, i: Inputs, o: F.Obligation): Result<Prepared, RunError> {
    var account := AccountFor(env, i, o);
    if account.Failure? then Failure(account.error) else
    var arms := ArmsOf(env, i, o, account.value);
    if arms.Failure? then Failure(arms.error) else
    var p := PreparedFrom(env, i, o, account.value, arms.value);
    if PacketRefusal(env, p.a.packet).Some? then Failure(PacketRefusal(env, p.a.packet).value)
    else if PacketRefusal(env, p.b.packet).Some? then Failure(PacketRefusal(env, p.b.packet).value)
    else Success(p)
  }

  /** The sides in slot order. */
  function First(p: Prepared): Side { if p.swapped then p.b else p.a }
  function Second(p: Prepared): Side { if p.swapped then p.a else p.b }

  function FirstCount(p: Prepared): int { if p.swapped then p.counts.1 else p.counts.0 }
  function SecondCount(p: Prepared): int { if p.swapped then p.counts.0 else p.counts.1 }

  function BudgetFor(env: Env, unit: string, p: Prepared): Budget {
    BudgetOf(unit, (env.h.packet(First(p).packet), env.h.packet(Second(p).packet)), (FirstCount(p), SecondCount(p)))
  }

  function PairFor(env: Env, l: Launch, o: F.Obligation, p: Prepared): PairManifest {
    PairManifest(env.run(l.unit, p.task, l.stageSha), p.task, l.unit, o.projection.canonical, [First(p).arm, Second(p).arm], p.opportunity,
                 Sort([ArmView(p.a.arm, p.a.view), ArmView(p.b.arm, p.b.view)], ArmViewLe))
  }

  // ---- One call ----------------------------------------------------------------------------------------------------

  const FINISHES: seq<string> := ["stop", "length", "tool_calls", "error", "unknown", "process_error", "transport_timeout"]

  function RequestFor(env: Env, body: RequestBody): Request { Request(body, env.requestSeal(body)) }

  function ReviewRequest(env: Env, p: Packet): Request { RequestFor(env, RequestBody("reviewer", OfPacket(p), None, 12000, 900)) }

  function JudgeRequest(env: Env, b: Batch): Request { RequestFor(env, RequestBody("judge", OfBatch(b), Some(env.instruction), 12000, 90)) }

  function Counted(name: string, count: Option<int>): seq<(string, int)> { if count.Some? then [(name, count.value)] else [] }

  /** The usage pairs a response states. */
  function UsageList(u: Usage): seq<(string, int)> {
    Counted("input_tokens", u.input) + Counted("output_tokens", u.output) + Counted("cache_tokens", u.cache)
  }

  predicate NotNegative(count: Option<int>) { count.Some? ==> count.value >= 0 }

  predicate ResponseValid(r: Response, request: Request) {
    && r.requestSeal == request.seal && r.tokens == request.body.tokens && r.timeout == request.body.timeout && r.finish in FINISHES
    && NotNegative(r.usage.input) && NotNegative(r.usage.output) && NotNegative(r.usage.cache)
  }

  /** `_backend_artifacts`: the envelopes agree with each other and with the reply. */
  predicate BackendAgrees(env: Env, call: Call, expected: Request) {
    && call.request == expected && env.hmacOk(env.encodeResponse(call.response), call.hmac) && ResponseValid(call.response, expected)
    && call.response.raw == call.reply.raw && UsageList(call.response.usage) == call.reply.usage
    && (call.response.finish == "length") == call.reply.providerTruncated
    && (call.reply.exit == 0 && !call.reply.timeout ==> call.response.finish != "process_error" && call.response.finish != "transport_timeout")
  }

  function CountOf(usage: seq<(string, int)>, name: string): Option<int> {
    if usage == [] then None
    else if usage[|usage| - 1].0 == name then Some(usage[|usage| - 1].1) else CountOf(usage[..|usage| - 1], name)
  }

  function NameOf(u: (string, int)): string { u.0 }

  /** `_token_observation`. */
  function TokensOf(usage: seq<(string, int)>): Tokens {
    var names := Map(usage, NameOf);
    if names == [] then NoTokens("backend_usage_absent")
    else if !Distinct(names) || exists x :: x in names && x !in ["input_tokens", "output_tokens", "cache_tokens"] then NoTokens("backend_usage_invalid")
    else Observed(CountOf(usage, "input_tokens"), CountOf(usage, "output_tokens"), CountOf(usage, "cache_tokens"))
  }

  function ExecutionOf(env: Env, r: Reply, sha: Option<string>): Execution {
    Execution(r.exit, r.timeout, r.clientTruncated, r.providerTruncated, TokensOf(r.usage), r.tools, env.h.raw(r.raw), sha, sha.Some?)
  }

  function CallOf(env: Env, call: Call, sha: Option<string>): CallRecord {
    CallRecord(call.request, Sealed(call.hmac, env.encodeResponse(call.response)), call.reply.raw, ExecutionOf(env, call.reply, sha))
  }

  /** `decode_model` for a reviewer. */
  function DecodeReview(env: Env, raw: Bytes, p: Packet): Result<Decoded<Review>, Code> {
    match env.parseReview(raw)
    case Failure(code) => Failure(code)
    case Success(review) =>
      match CheckReview(review, p)
      case Some(code) => Failure(code)
      case None => Success(Decoded(review, env.reviewSha(review)))
  }

  /** `decode_model` for the judge. */
  function DecodeJudgement(env: Env, raw: Bytes, b: Batch): Result<Decoded<Judgement>, Code> {
    match env.parseJudgement(raw)
    case Failure(code) => Failure(code)
    case Success(judgement) =>
      match CheckJudgement(judgement, b)
      case Some(code) => Failure(code)
      case None => Success(Decoded(judgement, env.judgementSha(judgement)))
  }

  predicate NoAnswer(r: Reply) { r.timeout || r.exit != 0 || r.raw == [] }

  /** `_decode` for a reviewer reply: the output, and the codes of a refusal. */
  function ReviewIn(env: Env, r: Reply, p: Packet): (Option<Decoded<Review>>, seq<Code>) {
    if NoAnswer(r) then (None, []) else
    match DecodeReview(env, r.raw, p)
    case Success(d) => (Some(d), [])
    case Failure(code) => (None, [code])
  }

  function JudgementIn(env: Env, r: Reply, b: Batch): Option<Decoded<Judgement>> {
    if NoAnswer(r) then None else
    match DecodeJudgement(env, r.raw, b)
    case Success(d) => Some(d)
    case Failure(_) => None
  }

  function ShaOf<V>(d: Option<Decoded<V>>): Option<string> { if d.Some? then Some(d.value.sha) else None }
  function ValueOf<V>(d: Option<Decoded<V>>): Option<V> { if d.Some? then Some(d.value.value) else None }

  function MechanicalIn(env: Env, unit: string, o: Opportunity, s: Side, call: Call): Mechanical {
    var (decoded, codes) := ReviewIn(env, call.reply, s.packet);
    MechanicalOf(env.h, env.norm, s.packet, s.arm, o, call.reply, decoded, codes, unit, s.view.sha)
  }

  /** The records of one slot. */
  function SlotOf(env: Env, unit: string, o: Opportunity, s: Side, call: Call): SlotRecord {
    var decoded := ReviewIn(env, call.reply, s.packet).0;
    SlotRecord(CallOf(env, call, ShaOf(decoded)), ValueOf(decoded), MechanicalIn(env, unit, o, s, call))
  }

  // ---- Judging -------------------------------------------------------------------------------------------------------

  function SeatOf(env: Env, unit: string, o: Opportunity, s: Side, call: Call): Seat {
    Seat(CandidateOf(env.h, s.packet, s.view, MechanicalIn(env, unit, o, s, call), ReviewIn(env, call.reply, s.packet).0), s.arm)
  }

  /** The seats of the batch: the call of each arm is the one made in its slot. */
  function SeatsOf(env: Env, unit: string, p: Prepared, call0: Call, call1: Call): seq<Seat> {
    var callA, callB := if p.swapped then call1 else call0, if p.swapped then call0 else call1;
    Seated(SeatOf(env, unit, p.opportunity, p.a, callA), SeatOf(env, unit, p.opportunity, p.b, callB), env.judgeBit(p.task))
  }

  function BatchFor(env: Env, p: Prepared, seats: seq<Seat>): Batch { BatchOf(env.h, p.task, Map(seats, CandidateIn)) }

  function ReverseFor(b: Batch, seats: seq<Seat>): Reverse { Reverse(b.id, Map(seats, EntryOf)) }

  function ScoredOf(env: Env, unit: string, p: Prepared, call0: Call, call1: Call, judgeCall: Call): Scored {
    var slot0, slot1 := SlotOf(env, unit, p.opportunity, First(p), call0), SlotOf(env, unit, p.opportunity, Second(p), call1);
    var seats := SeatsOf(env, unit, p, call0, call1);
    var batch := BatchFor(env, p, seats);
    var reverse := ReverseFor(batch, seats);
    var decoded := JudgementIn(env, judgeCall.reply, batch);
    var utility := UtilityOf(batch, reverse, ValueOf(decoded), NoAnswer(judgeCall.reply));
    Scored(slot0, slot1, reverse, batch, CallOf(env, judgeCall, ShaOf(decoded)), ValueOf(decoded), utility,
           PrimaryOf(env.h, [slot0.mechanical, slot1.mechanical], utility))
  }

  // ---- The run -----------------------------------------------------------------------------------------------------

  /** `_read_authenticated` and `_obligation`. */
  function ReadObligation(env: Env, i: Inputs): Result<F.Obligation, RunError> {
    if env.h.raw(i.rawObligation) != i.launch.obligationSha then Failure(AuthenticatedHashMismatch) else
    match env.parse(i.rawObligation)
    case None => Failure(AuthenticatedJsonInvalid)
    case Some(record) =>
      if !record.ObligationR? then Failure(AuthenticatedJsonInvalid)
      else if !F.Acceptable(env.c, env.production, env.valid, i.launch.unit, record.obligation) then Failure(ObligationInvalid)
      else Success(record.obligation)
  }

  function BaseRecords(env: Env, i: Inputs, o: F.Obligation, p: Prepared): Records {
    Records(i.launch, Provenance(env.resolve(i.launch.root), i.launch.base, i.launch.head), o, PairFor(env, i.launch, o, p), BudgetFor(env, i.launch.unit, p),
            First(p).packet, Second(p).packet, None)
  }

  /** The records a run finalizes; without scores when the pair is over the byte ceiling. */
  function RecordsOf(env: Env, i: Inputs, t: Transport): Result<Records, RunError> {
    if !LaunchValid(i.launch) then Failure(LaunchInvalid) else
    var o := ReadObligation(env, i);
    if o.Failure? then Failure(o.error) else
    var p := Prepare(env, i, o.value);
    if p.Failure? then Failure(p.error) else
    var base := BaseRecords(env, i, o.value, p.value);
    if !base.budget.eligible then Success(base) else ScoredRecords(env, i, t, p.value, base)
  }

  function ScoredRecords(env: Env, i: Inputs, t: Transport, p: Prepared, base: Records): Result<Records, RunError> {
    var call0 := t.review(First(p).packet, 0);
    if !BackendAgrees(env, call0, ReviewRequest(env, First(p).packet)) then Failure(BackendMismatch) else
    var call1 := t.review(Second(p).packet, 1);
    if !BackendAgrees(env, call1, ReviewRequest(env, Second(p).packet)) then Failure(BackendMismatch) else
    var batch := BatchFor(env, p, SeatsOf(env, i.launch.unit, p, call0, call1));
    var judgeCall := t.judge(batch);
    if !BackendAgrees(env, judgeCall, JudgeRequest(env, batch)) then Failure(BackendMismatch)
    else Success(base.(scored := Some(ScoredOf(env, i.launch.unit, p, call0, call1, judgeCall))))
  }

  function TerminalOf(rs: Records): string { if rs.scored.Some? then "sealed" else "model_ineligible" }
}
