/** Mechanical scoring, blind judging and the primary score of a pair (evaluator/pipeline.py
    `_mechanical` to `_primary`, model_boundary.py `_reviewer` and `_judge`). */
module PairedScore {
  import opened Wrappers
  import opened Ordering
  import opened Grouping
  import opened PairedArms
  import opened PairedPackets
  import P = SourcePayload
  import W = WindowAlgebra
  import F = FrozenObligation
  import C = ContextProjection

  // ---- Failure codes ----------------------------------------------------------------------------------------

  datatype Code =
    | Timeout | ProcessExit | EmptyResponse | MalformedJson | SchemaInvalid | TaskIdMismatch | PacketHashMismatch
    | InventoryHashMismatch | MissingPayload | SourceBlobBase64Invalid | BadPayloadHash | BadPayloadLength
    | SourcePayloadClosureInvalid | ReviewerLensLeak | HiddenBindingMismatch | PairOpportunityMismatch | ForeignSourceId
    | ObservationRangeInvalid | ChangedSourceObservationMissing | ForeignLossId | RoutineLossOnly | MixedLossClass
    | AsymmetricAbstentionOpportunity | LossQuestionMismatch | InconclusiveDisposition | InvalidTextCodepoint
    | NonSubstantiveText | PolicyViolation | ToolViolation | ClientTruncation | ProviderTruncation | MissingRawHash
    | MissingParsedHash | JudgeBatchUnavailable | JudgeBatchInvalid | JudgeCandidateMismatch | UtilityThresholdFailed
    | PrimaryConjunctionInvalid

  /** The frozen order of `failure_codes.v1.json`. */
  const CODE_ORDER: seq<Code> := [
    Timeout, ProcessExit, EmptyResponse, MalformedJson, SchemaInvalid, TaskIdMismatch, PacketHashMismatch,
    InventoryHashMismatch, MissingPayload, SourceBlobBase64Invalid, BadPayloadHash, BadPayloadLength,
    SourcePayloadClosureInvalid, ReviewerLensLeak, HiddenBindingMismatch, PairOpportunityMismatch, ForeignSourceId,
    ObservationRangeInvalid, ChangedSourceObservationMissing, ForeignLossId, RoutineLossOnly, MixedLossClass,
    AsymmetricAbstentionOpportunity, LossQuestionMismatch, InconclusiveDisposition, InvalidTextCodepoint,
    NonSubstantiveText, PolicyViolation, ToolViolation, ClientTruncation, ProviderTruncation, MissingRawHash,
    MissingParsedHash, JudgeBatchUnavailable, JudgeBatchInvalid, JudgeCandidateMismatch, UtilityThresholdFailed,
    PrimaryConjunctionInvalid]

  function Select(order: seq<Code>, codes: seq<Code>): seq<Code> {
    if order == [] then [] else (if order[0] in codes then [order[0]] else []) + Select(order[1..], codes)
  }

  /** `_codes`: the given codes in frozen order, each once. */
  function Codes(codes: seq<Code>): seq<Code> { Select(CODE_ORDER, codes) }

  predicate Blocks(codes: seq<Code>, blocking: seq<Code>) { exists c :: c in codes && c in blocking }

  const PROCESS_CODES: seq<Code> := [Timeout, ProcessExit, EmptyResponse, MalformedJson, SchemaInvalid, TaskIdMismatch, InventoryHashMismatch]

  const CLOSURE_CODES: seq<Code> := [
    PacketHashMismatch, InventoryHashMismatch, MissingPayload, BadPayloadHash, BadPayloadLength, SourcePayloadClosureInvalid,
    ReviewerLensLeak, HiddenBindingMismatch, PairOpportunityMismatch, ForeignSourceId, ObservationRangeInvalid,
    ChangedSourceObservationMissing, ForeignLossId, RoutineLossOnly, MixedLossClass, AsymmetricAbstentionOpportunity, LossQuestionMismatch]

  const USEFUL_CODES: seq<Code> := [
    ForeignSourceId, ObservationRangeInvalid, ChangedSourceObservationMissing, ForeignLossId, RoutineLossOnly, MixedLossClass,
    AsymmetricAbstentionOpportunity, LossQuestionMismatch, InconclusiveDisposition, InvalidTextCodepoint, NonSubstantiveText]

  const POLICY_CODES: seq<Code> := [PolicyViolation, ToolViolation, ClientTruncation, ProviderTruncation]

  // ---- Reviewer output --------------------------------------------------------------------------------------------

  datatype Observation = Observation(source: string, start: int, end: int)
  datatype Conclusion = IssuePresent | IssueAbsent | Inconclusive
  datatype Claim = Claim(conclusion: Conclusion, summary: string, observations: seq<Observation>, trigger: string, behaviour: string, consequence: string)

  datatype Disposition =
    | Claims(claims: seq<Claim>)
    | Abstention(reason: string, basis: seq<string>, observations: seq<Observation>, blocked: string, needed: string)

  datatype Review = Review(task: string, inventory: string, disposition: Disposition)

  predicate ObservationLe(a: Observation, b: Observation) {
    if a.source != b.source then TextLe(a.source, b.source)
    else a.start < b.start || (a.start == b.start && a.end <= b.end)
  }

  predicate Text(s: string, limit: int) { 1 <= |s| <= limit }

  predicate ObservationsValid(os: seq<Observation>) {
    && 1 <= |os| <= 8 && (forall o :: o in os ==> o.source != "" && 1 <= o.start <= o.end)
    && os == Sort(os, ObservationLe) && Distinct(os)
  }

  predicate ClaimValid(c: Claim) {
    Text(c.summary, 1024) && ObservationsValid(c.observations) && Text(c.trigger, 512) && Text(c.behaviour, 512) && Text(c.consequence, 512)
  }

  predicate DispositionValid(d: Disposition) {
    match d
    case Claims(claims) => 1 <= |claims| <= 3 && forall c :: c in claims ==> ClaimValid(c)
    case Abstention(reason, basis, observations, blocked, needed) =>
      && reason in [SOURCE_ENTRY.reason, REFERENCE_ENTRY.reason, PROJECTION_ENTRY.reason]
      && 1 <= |basis| <= 3 && (forall b :: b in basis ==> b != "") && basis == Sort(basis, TextLe) && Distinct(basis)
      && ObservationsValid(observations) && Text(blocked, 512) && Text(needed, 512)
  }

  /** `_reviewer`, on an output of the closed shape. */
  function CheckReview(r: Review, p: Packet): Option<Code> {
    if r.task != p.task then Some(TaskIdMismatch)
    else if r.inventory != p.inventoryId then Some(InventoryHashMismatch)
    else if DispositionValid(r.disposition) then None else Some(SchemaInvalid)
  }

  // ---- Mechanical score ---------------------------------------------------------------------------------------------

  /** What the transport reports of one call. */
  datatype Reply = Reply(raw: seq<P.Byte>, exit: int, timeout: bool, clientTruncated: bool, providerTruncated: bool,
                         usage: seq<(string, int)>, tools: seq<string>)

  datatype Decoded<V> = Decoded(value: V, sha: string)

  /** A text's normalization trace and whether it is substantive; None when a code point is invalid. */
  type Normalizer = (string, Packet, int) -> Option<(string, bool)>

  function SourceById(sources: seq<SourceRecord>, id: string): Option<SourceRecord> {
    if sources == [] then None
    else if sources[|sources| - 1].id == id then Some(sources[|sources| - 1]) else SourceById(sources[..|sources| - 1], id)
  }

  function LossById(losses: seq<Loss>, id: string): Option<Loss> {
    if losses == [] then None
    else if losses[|losses| - 1].id == id then Some(losses[|losses| - 1]) else LossById(losses[..|losses| - 1], id)
  }

  function ObservationCode(o: Observation, p: Packet): seq<Code> {
    var s := SourceById(p.inventory.sources, o.source);
    if s == None then [ForeignSourceId]
    else if o.start < s.value.body.start || o.end > s.value.body.end then [ObservationRangeInvalid] else []
  }

  predicate ObservesChange(o: Observation, p: Packet) {
    var s := SourceById(p.inventory.sources, o.source);
    s.Some? && ObservationCode(o, p) == [] && s.value.body.role == W.Changed
  }

  function EachObservation(os: seq<Observation>, p: Packet): seq<Code> {
    if os == [] then [] else EachObservation(os[..|os| - 1], p) + ObservationCode(os[|os| - 1], p)
  }

  /** `_observations`. */
  function ObservationCodes(os: seq<Observation>, p: Packet): seq<Code> {
    EachObservation(os, p) + (if exists o :: o in os && ObservesChange(o, p) then [] else [ChangedSourceObservationMissing])
  }

  method CheckObservations(os: seq<Observation>, p: Packet) returns (codes: seq<Code>)
    ensures codes == ObservationCodes(os, p)
  {
    codes := [];
    var changed := false;
    for i := 0 to |os|
      invariant codes == EachObservation(os[..i], p)
      invariant changed <==> exists o :: o in os[..i] && ObservesChange(o, p)
    {
      assert os[..i + 1] == os[..i] + [os[i]] && os[..i + 1][..i] == os[..i];
      var source := SourceById(p.inventory.sources, os[i].source);
      if source == None {
        codes := codes + [ForeignSourceId];
      } else if os[i].start < source.value.body.start || os[i].end > source.value.body.end {
        codes := codes + [ObservationRangeInvalid];
      } else if source.value.body.role == W.Changed {
        changed := true;
        assert ObservesChange(os[i], p);
      }
    }
    assert os[..|os|] == os;
    if !changed { codes := codes + [ChangedSourceObservationMissing]; }
  }

  /** Codes and traces of a list of texts with their limits. */
  function TextCodes(norm: Normalizer, p: Packet, texts: seq<(string, int)>): seq<Code> {
    if texts == [] then [] else
    var t := norm(texts[|texts| - 1].0, p, texts[|texts| - 1].1);
    TextCodes(norm, p, texts[..|texts| - 1]) + (if t == None then [InvalidTextCodepoint] else if t.value.1 then [] else [NonSubstantiveText])
  }

  function Traces(norm: Normalizer, p: Packet, texts: seq<(string, int)>): seq<string> {
    if texts == [] then [] else
    var t := norm(texts[|texts| - 1].0, p, texts[|texts| - 1].1);
    Traces(norm, p, texts[..|texts| - 1]) + (if t == None then [] else [t.value.0])
  }

  method CheckTexts(norm: Normalizer, p: Packet, texts: seq<(string, int)>) returns (codes: seq<Code>, traces: seq<string>)
    ensures codes == TextCodes(norm, p, texts) && traces == Traces(norm, p, texts)
  {
    codes, traces := [], [];
    for i := 0 to |texts|
      invariant codes == TextCodes(norm, p, texts[..i]) && traces == Traces(norm, p, texts[..i])
    {
      assert texts[..i + 1][..i] == texts[..i];
      match norm(texts[i].0, p, texts[i].1) {
        case None => codes := codes + [InvalidTextCodepoint];
        case Some(trace) =>
          traces := traces + [trace.0];
          if !trace.1 { codes := codes + [NonSubstantiveText]; }
      }
    }
    assert texts[..|texts|] == texts;
  }

  function ClaimTexts(c: Claim): seq<(string, int)> { [(c.summary, 1024), (c.trigger, 512), (c.behaviour, 512), (c.consequence, 512)] }

  function ClaimCodes(norm: Normalizer, p: Packet, c: Claim): seq<Code> {
    ObservationCodes(c.observations, p) + (if c.conclusion == Inconclusive then [InconclusiveDisposition] else []) + TextCodes(norm, p, ClaimTexts(c))
  }

  function EachClaim(norm: Normalizer, p: Packet, claims: seq<Claim>): seq<Code> {
    if claims == [] then [] else EachClaim(norm, p, claims[..|claims| - 1]) + ClaimCodes(norm, p, claims[|claims| - 1])
  }

  function ClaimTraces(norm: Normalizer, p: Packet, claims: seq<Claim>): seq<string> {
    if claims == [] then [] else ClaimTraces(norm, p, claims[..|claims| - 1]) + Traces(norm, p, ClaimTexts(claims[|claims| - 1]))
  }

  /** The codes an abstention earns for the losses it cites. */
  function BasisCodes(p: Packet, comparable: bool, reason: string, basis: seq<string>): seq<Code> {
    var losses := p.inventory.losses;
    if exists b :: b in basis && LossById(losses, b) == None then [ForeignLossId]
    else if exists b :: b in basis && LossById(losses, b).Some? && LossById(losses, b).value.reason == ROUTINE
    then [if |basis| == 1 then RoutineLossOnly else MixedLossClass]
    else if !comparable then [AsymmetricAbstentionOpportunity]
    else if exists b :: b in basis && LossById(losses, b).Some? && (!LossById(losses, b).value.eligible || LossById(losses, b).value.reason != reason)
    then [LossQuestionMismatch] else []
  }

  function AbstentionTexts(blocked: string, needed: string): seq<(string, int)> { [(blocked, 512), (needed, 512)] }

  function DispositionCodes(norm: Normalizer, p: Packet, comparable: bool, d: Disposition): seq<Code> {
    match d
    case Claims(claims) => EachClaim(norm, p, claims)
    case Abstention(reason, basis, observations, blocked, needed) =>
      ObservationCodes(observations, p) + BasisCodes(p, comparable, reason, basis) + TextCodes(norm, p, AbstentionTexts(blocked, needed))
  }

  function DispositionTraces(norm: Normalizer, p: Packet, d: Disposition): seq<string> {
    match d
    case Claims(claims) => ClaimTraces(norm, p, claims)
    case Abstention(_, _, _, blocked, needed) => Traces(norm, p, AbstentionTexts(blocked, needed))
  }

  function ReplyCodes(r: Reply): seq<Code> {
    (if r.timeout then [Timeout] else []) + (if r.exit != 0 then [ProcessExit] else []) + (if r.raw == [] then [EmptyResponse] else []) +
    (if r.clientTruncated then [ClientTruncation] else []) + (if r.providerTruncated then [ProviderTruncation] else []) +
    (if r.tools != [] then [ToolViolation] else [])
  }

  datatype Mechanical = Mechanical(task: string, unit: string, arm: string, packet: string, raw: string, parsed: Option<string>, view: string,
                                   opportunity: string, process: bool, closure: bool, useful: bool, policy: bool, codes: seq<Code>, traces: seq<string>)

  predicate AllValid(m: Mechanical) { m.process && m.closure && m.useful && m.policy }

  datatype ViewBody = ViewBody(task: string, obligations: seq<string>, relations: seq<string>, pairs: seq<C.Pair>,
                               subjectWindows: seq<F.SubjectWindow>, projection: string, hidden: seq<HiddenLoss>)
  datatype View = View(body: ViewBody, sha: string)

  datatype State = Judgeable(output: Review) | ForcedZero(codes: seq<Code>)
  datatype CandidateKey = CandidateKey(task: string, packet: string, output: string, view: string, mechanical: string, judgeable: bool)
  datatype Candidate = Candidate(id: string, packetSha: string, output: string, viewSha: string, mechanical: string, packet: Packet, view: View, state: State)
  datatype Unblinding = Unblinding(candidate: string, arm: string)
  datatype BatchKey = BatchKey(task: string, ids: seq<string>, packets: seq<string>, outputs: seq<string>, views: seq<string>, mechanicals: seq<string>)
  datatype Batch = Batch(task: string, id: string, candidates: seq<Candidate>)
  datatype Reverse = Reverse(batch: string, entries: seq<Unblinding>)

  /** The hashes of the scored records. */
  datatype ScoreNames = ScoreNames(raw: seq<P.Byte> -> string, packet: Packet -> string, view: ViewBody -> string, opportunity: Opportunity -> string,
                                   mechanical: Mechanical -> string, candidate: CandidateKey -> string, batch: BatchKey -> string)

  function MechanicalFrom(h: ScoreNames, p: Packet, arm: string, o: Opportunity, reply: Reply, decoded: Option<Decoded<Review>>, codes: seq<Code>,
                          unit: string, view: string, traces: seq<string>): Mechanical {
    var ordered := Codes(codes);
    Mechanical(p.task, unit, arm, h.packet(p), h.raw(reply.raw), if decoded.Some? then Some(decoded.value.sha) else None, view, h.opportunity(o),
               !Blocks(ordered, PROCESS_CODES), !Blocks(ordered, CLOSURE_CODES), !Blocks(ordered, USEFUL_CODES), !Blocks(ordered, POLICY_CODES),
               ordered, SortedKeys(traces))
  }

  function AllCodes(norm: Normalizer, p: Packet, comparable: bool, reply: Reply, decoded: Option<Decoded<Review>>, decodeCodes: seq<Code>): seq<Code> {
    decodeCodes + ReplyCodes(reply) + (if decoded.Some? then DispositionCodes(norm, p, comparable, decoded.value.value.disposition) else [])
  }

  function AllTraces(norm: Normalizer, p: Packet, decoded: Option<Decoded<Review>>): seq<string> {
    if decoded.Some? then DispositionTraces(norm, p, decoded.value.value.disposition) else []
  }

  /** `_mechanical`. */
  function MechanicalOf(h: ScoreNames, norm: Normalizer, p: Packet, arm: string, o: Opportunity, reply: Reply, decoded: Option<Decoded<Review>>,
                        decodeCodes: seq<Code>, unit: string, view: string): Mechanical {
    MechanicalFrom(h, p, arm, o, reply, decoded, AllCodes(norm, p, o.comparable, reply, decoded, decodeCodes), unit, view, AllTraces(norm, p, decoded))
  }

  method CheckClaims(norm: Normalizer, p: Packet, claims: seq<Claim>) returns (codes: seq<Code>, traces: seq<string>)
    ensures codes == EachClaim(norm, p, claims) && traces == ClaimTraces(norm, p, claims)
  {
    codes, traces := [], [];
    for i := 0 to |claims|
      invariant codes == EachClaim(norm, p, claims[..i]) && traces == ClaimTraces(norm, p, claims[..i])
    {
      assert claims[..i + 1][..i] == claims[..i];
      var seen := CheckObservations(claims[i].observations, p);
      var texts, made := CheckTexts(norm, p, ClaimTexts(claims[i]));
      codes := codes + (seen + (if claims[i].conclusion == Inconclusive then [InconclusiveDisposition] else []) + texts);
      traces := traces + made;
    }
    assert claims[..|claims|] == claims;
  }

  /** `_mechanical` step by step. */
  method ScoreMechanically(h: ScoreNames, norm: Normalizer, p: Packet, arm: string, o: Opportunity, reply: Reply, decoded: Option<Decoded<Review>>,
                           decodeCodes: seq<Code>, unit: string, view: string)
    returns (m: Mechanical)
    ensures m == MechanicalOf(h, norm, p, arm, o, reply, decoded, decodeCodes, unit, view)
  {
    var codes, traces: seq<string> := decodeCodes + ReplyCodes(reply), [];
    if decoded.Some? {
      match decoded.value.value.disposition {
        case Claims(claims) =>
          var more, made := CheckClaims(norm, p, claims);
          codes, traces := codes + more, made;
        case Abstention(reason, basis, observations, blocked, needed) =>
          var seen := CheckObservations(observations, p);
          var texts, made := CheckTexts(norm, p, AbstentionTexts(blocked, needed));
          codes, traces := codes + (seen + BasisCodes(p, o.comparable, reason, basis) + texts), made;
      }
    } else {
      assert codes + [] == codes;
    }
    m := MechanicalFrom(h, p, arm, o, reply, decoded, codes, unit, view, traces);
  }

  // ---- Candidates and the blind batch ------------------------------------------------------------------------------

  predicate IsJudgeable(m: Mechanical, decoded: Option<Decoded<Review>>) { AllValid(m) && m.codes == [] && decoded.Some? }

  function KeyOf(c: Candidate, task: string): CandidateKey {
    CandidateKey(task, c.packetSha, c.output, c.viewSha, c.mechanical, c.state.Judgeable?)
  }

  /** `_candidate`, the public part. */
  function CandidateOf(h: ScoreNames, p: Packet, view: View, m: Mechanical, decoded: Option<Decoded<Review>>): Candidate {
    var state := if IsJudgeable(m, decoded) then Judgeable(decoded.value.value) else ForcedZero(m.codes);
    var key := CandidateKey(p.task, h.packet(p), m.raw, view.sha, h.mechanical(m), state.Judgeable?);
    Candidate(h.candidate(key), h.packet(p), m.raw, view.sha, h.mechanical(m), p, view, state)
  }

  function IdOf(c: Candidate): string { c.id }
  function PacketShaOf(c: Candidate): string { c.packetSha }
  function OutputOf(c: Candidate): string { c.output }
  function ViewShaOf(c: Candidate): string { c.viewSha }
  function MechanicalShaOf(c: Candidate): string { c.mechanical }

  function BatchOf(h: ScoreNames, task: string, candidates: seq<Candidate>): Batch {
    Batch(task, h.batch(BatchKey(task, Map(candidates, IdOf), Map(candidates, PacketShaOf), Map(candidates, OutputOf), Map(candidates, ViewShaOf),
                                 Map(candidates, MechanicalShaOf))), candidates)
  }

  /** A candidate with the arm it hides. */
  datatype Seat = Seat(candidate: Candidate, arm: string)

  predicate SeatLe(a: Seat, b: Seat) { TextLe(a.arm, b.arm) }

  function CandidateIn(s: Seat): Candidate { s.candidate }
  function EntryOf(s: Seat): Unblinding { Unblinding(s.candidate.id, s.arm) }

  /** The two candidates by arm id, reversed when the permutation bit says so. */
  function Seated(a: Seat, b: Seat, reversed: bool): seq<Seat> {
    var ordered := Sort([a, b], SeatLe);
    if |ordered| == 2 && reversed then [ordered[1], ordered[0]] else ordered
  }

  // ---- Judging --------------------------------------------------------------------------------------------------------

  datatype Score = Score(candidate: string, packet: string, output: string, view: string, mechanical: string, forced: bool, dimensions: seq<int>,
                         total: int, usable: bool)
  datatype Judgement = Judgement(batch: string, scores: seq<Score>)

  predicate Echoes(s: Score, c: Candidate) {
    s.candidate == c.id && s.packet == c.packetSha && s.output == c.output && s.view == c.viewSha && s.mechanical == c.mechanical
  }

  predicate ScoreValid(s: Score, c: Candidate) {
    && |s.dimensions| == 4 && (forall d :: d in s.dimensions ==> 0 <= d <= 2) && s.total == Sum(s.dimensions)
    && s.forced == c.state.ForcedZero? && (s.forced ==> s.total == 0 && !s.usable)
  }

  /** `_judge`, on an output of the closed shape. */
  function CheckJudgement(j: Judgement, b: Batch): Option<Code> {
    if j.batch != b.id then Some(JudgeCandidateMismatch)
    else if |j.scores| != 2 || |b.candidates| != 2 then Some(JudgeBatchInvalid)
    else if !Echoes(j.scores[0], b.candidates[0]) || !Echoes(j.scores[1], b.candidates[1]) then Some(JudgeCandidateMismatch)
    else if ScoreValid(j.scores[0], b.candidates[0]) && ScoreValid(j.scores[1], b.candidates[1]) then None else Some(JudgeBatchInvalid)
  }

  datatype UtilityScore = UtilityScore(candidate: string, arm: string, valid: bool, codes: seq<Code>)
  datatype Utility = Utility(batch: string, scores: seq<UtilityScore>)

  /** A judgeable candidate, at least one in every dimension, six in all, and usable. */
  predicate Passes(c: Candidate, s: Score) {
    c.state.Judgeable? && (forall d :: d in s.dimensions ==> d >= 1) && s.total >= 6 && s.usable
  }

  /** Candidates zipped with scores: one without a score is passed over. */
  function PassedFrom(candidates: seq<Candidate>, scores: seq<Score>): map<string, bool> {
    if candidates == [] then map[] else
    var n := |candidates| - 1;
    var front := PassedFrom(candidates[..n], scores);
    if n < |scores| then front[candidates[n].id := Passes(candidates[n], scores[n])] else front
  }

  lemma {:induction false} ZipStops(candidates: seq<Candidate>, scores: seq<Score>)
    requires |scores| <= |candidates|
    ensures PassedFrom(candidates, scores) == PassedFrom(candidates[..|scores|], scores)
  {
    var n := |candidates| - 1;
    if |scores| < |candidates| {
      ZipStops(candidates[..n], scores);
      assert candidates[..n][..|scores|] == candidates[..|scores|];
    } else {
      assert candidates[..|scores|] == candidates;
    }
  }

  function UtilityScoreOf(e: Unblinding, passed: map<string, bool>, decoded: bool, unavailable: bool): UtilityScore {
    var valid := e.candidate in passed && passed[e.candidate];
    UtilityScore(e.candidate, e.arm, valid,
                 if valid then [] else [if unavailable then JudgeBatchUnavailable else if !decoded then JudgeBatchInvalid else UtilityThresholdFailed])
  }

  function Scoring(passed: map<string, bool>, decoded: bool, unavailable: bool): Unblinding -> UtilityScore {
    (e: Unblinding) => UtilityScoreOf(e, passed, decoded, unavailable)
  }

  /** `_utility`. */
  function UtilityOf(b: Batch, r: Reverse, decoded: Option<Judgement>, unavailable: bool): Utility {
    var passed := if decoded.Some? then PassedFrom(b.candidates, decoded.value.scores) else map[];
    Utility(b.id, Map(r.entries, Scoring(passed, decoded.Some?, unavailable)))
  }

  /** The loop over candidates and scores together. */
  method ZipScores(candidates: seq<Candidate>, scores: seq<Score>) returns (passed: map<string, bool>)
    ensures passed == PassedFrom(candidates, scores)
  {
    passed := map[];
    var n := if |candidates| <= |scores| then |candidates| else |scores|;
    for i := 0 to n
      invariant passed == PassedFrom(candidates[..i], scores)
    {
      assert candidates[..i + 1][..i] == candidates[..i];
      passed := passed[candidates[i].id := Passes(candidates[i], scores[i])];
    }
    if |scores| < |candidates| { ZipStops(candidates, scores); } else { assert candidates[..n] == candidates; }
  }

  /** The score loop of `_utility`, then its loop over entries. */
  method ScoreUtility(b: Batch, r: Reverse, decoded: Option<Judgement>, unavailable: bool) returns (u: Utility)
    ensures u == UtilityOf(b, r, decoded, unavailable)
  {
    var passed: map<string, bool> := map[];
    if decoded.Some? { passed := ZipScores(b.candidates, decoded.value.scores); }
    var rows: seq<UtilityScore> := [];
    for i := 0 to |r.entries|
      invariant |rows| == i && forall j :: 0 <= j < i ==> rows[j] == UtilityScoreOf(r.entries[j], passed, decoded.Some?, unavailable)
    {
      rows := rows + [UtilityScoreOf(r.entries[i], passed, decoded.Some?, unavailable)];
    }
    assert rows == Map(r.entries, Scoring(passed, decoded.Some?, unavailable));
    return Utility(b.id, rows);
  }

  datatype PrimaryScore = PrimaryScore(mechanical: Mechanical, mechanicalSha: string, candidate: string, batch: string, judged: bool, completed: bool,
                                       codes: seq<Code>)

  predicate MechanicalLe(a: Mechanical, b: Mechanical) { TextLe(a.arm, b.arm) }

  function ByArm(scores: seq<UtilityScore>, arm: string): Option<UtilityScore> {
    if scores == [] then None
    else if scores[|scores| - 1].arm == arm then Some(scores[|scores| - 1]) else ByArm(scores[..|scores| - 1], arm)
  }

  function PrimaryRow(h: ScoreNames, m: Mechanical, u: Utility): PrimaryScore {
    var s := ByArm(u.scores, m.arm);
    var judge := if s.Some? then s.value else UtilityScore("", m.arm, false, []);
    var codes := Codes(m.codes + judge.codes);
    PrimaryScore(m, h.mechanical(m), judge.candidate, u.batch, judge.valid, AllValid(m) && judge.valid && codes == [], codes)
  }

  /** `_primary`: one row per arm, in arm order. */
  function PrimaryOf(h: ScoreNames, mechanicals: seq<Mechanical>, u: Utility): seq<PrimaryScore> {
    var rows := Sort(mechanicals, MechanicalLe);
    seq(|rows|, i requires 0 <= i < |rows| => PrimaryRow(h, rows[i], u))
  }

  method ScorePrimary(h: ScoreNames, mechanicals: seq<Mechanical>, u: Utility) returns (rows: seq<PrimaryScore>)
    ensures rows == PrimaryOf(h, mechanicals, u)
  {
    var sorted := Sort(mechanicals, MechanicalLe);
    rows := [];
    for i := 0 to |sorted|
      invariant |rows| == i && forall j :: 0 <= j < i ==> rows[j] == PrimaryRow(h, sorted[j], u)
    {
      rows := rows + [PrimaryRow(h, sorted[i], u)];
    }
  }
}
