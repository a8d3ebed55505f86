/** The replay of a run from its records (evaluator/pipeline.py `audit_records`), and that every run
    the recorder finalizes passes it. */
module PairedAudit {
  import opened Wrappers
  import opened Ordering
  import opened Grouping
  import opened PairedArms
  import opened PairedPackets
  import opened PairedScore
  import opened PairedBlinding
  import opened PairedSoundness
  import opened PairedRecords
  import W = WindowAlgebra
  import WT = WindowTheorems
  import WB = WindowBytes
  import F = FrozenObligation
  import C = ContextProjection
  import A = Artifacts

  // ---- What the auditor asks --------------------------------------------------------------------------------------

  function ViewAt(arms: seq<ArmView>, arm: string): Option<View> {
    if arms == [] then None else if arms[|arms| - 1].arm == arm then Some(arms[|arms| - 1].view) else ViewAt(arms[..|arms| - 1], arm)
  }

  function ArmOfView(v: ArmView): string { v.arm }

  function ViewArms(arms: seq<ArmView>): set<string> { set v | v in arms :: v.arm }

  predicate PairAudit(env: Env, l: Launch, o: F.Obligation, m: PairManifest, run: string) {
    && (forall v :: v in m.arms ==> v.view.sha == env.h.view(v.view.body)) && Distinct(Map(m.arms, ArmOfView))
    && m.task == env.task(l.unit) && m.run == run == env.run(l.unit, m.task, l.stageSha) && m.unit == l.unit
    && m.projection == o.projection.canonical && |m.slotMap| == 2 && m.slotMap[0] != m.slotMap[1]
    && ViewArms(m.arms) == {m.slotMap[0], m.slotMap[1]}
  }

  predicate PacketAudit(env: Env, p: Packet) { PacketSound(env.n, p) && !env.lens(p) }

  predicate LaunchAudit(env: Env, l: Launch, v: Provenance, o: F.Obligation, stage: string) {
    && LaunchValid(l) && v.root == l.root && v.base == l.base && v.head == l.head
    && env.h.raw(env.encode(ObligationR(o))) == l.obligationSha && stage == l.stageSha
    && F.Acceptable(env.c, env.production, env.valid, l.unit, o)
  }

  /** The budget, computed again from the packets. */
  predicate BudgetAudit(env: Env, unit: string, b: Budget, p: Packet, q: Packet) {
    b == BudgetOf(unit, (env.h.packet(p), env.h.packet(q)), (PacketBytes(p), PacketBytes(q)))
  }

  predicate BaseAudit(env: Env, rs: Records, s: A.SealBody) {
    && LaunchAudit(env, rs.launch, rs.provenance, rs.obligation, s.stage)
    && PairAudit(env, rs.launch, rs.obligation, rs.pair, s.run)
    && PacketAudit(env, rs.packet0) && PacketAudit(env, rs.packet1)
    && BudgetAudit(env, rs.launch.unit, rs.budget, rs.packet0, rs.packet1)
  }

  /** `_token_observation_audit`. */
  predicate TokensValid(t: Tokens) {
    match t
    case Observed(input, output, cache) =>
      NotNegative(input) && NotNegative(output) && NotNegative(cache) && (input.Some? || output.Some? || cache.Some?)
    case NoTokens(reason) => reason == "backend_usage_absent" || reason == "backend_usage_invalid"
  }

  /** `_audit_backend_artifacts`. */
  predicate BackendAudit(env: Env, call: CallRecord, expected: Request) {
    && call.request == expected && env.hmacOk(call.sealed.bytes, call.sealed.hmac)
    && var r := env.parseResponse(call.sealed.bytes);
       r.Some? && env.encodeResponse(r.value) == call.sealed.bytes && ResponseValid(r.value, expected) && r.value.raw == call.raw
       && call.execution.providerTruncated == (r.value.finish == "length") && call.execution.tokens == TokensOf(UsageList(r.value.usage))
       && call.execution.raw == env.h.raw(call.raw)
  }

  predicate CallAudit(env: Env, call: CallRecord, expected: Request) { TokensValid(call.execution.tokens) && BackendAudit(env, call, expected) }

  predicate ReviewAudit(env: Env, s: SlotRecord, p: Packet) {
    if s.call.execution.present then
      s.parsed.Some? && var d := DecodeReview(env, s.call.raw, p);
      d.Success? && d.value.value == s.parsed.value && s.call.execution.parsed == Some(d.value.sha) && s.mechanical.parsed == Some(d.value.sha)
    else s.parsed == None
  }

  predicate SlotAudit(env: Env, m: PairManifest, slot: nat, p: Packet, s: SlotRecord) {
    && CallAudit(env, s.call, ReviewRequest(env, p)) && s.mechanical.raw == env.h.raw(s.call.raw) && s.mechanical.packet == env.h.packet(p)
    && slot < |m.slotMap| && s.mechanical.arm == m.slotMap[slot]
    && ViewAt(m.arms, s.mechanical.arm).Some? && s.mechanical.view == ViewAt(m.arms, s.mechanical.arm).value.sha
    && ReviewAudit(env, s, p)
  }

  function MechanicalBy(h: ScoreNames, ms: seq<Mechanical>, sha: string): Option<Mechanical> {
    if ms == [] then None else if h.mechanical(ms[|ms| - 1]) == sha then Some(ms[|ms| - 1]) else MechanicalBy(h, ms[..|ms| - 1], sha)
  }

  predicate StateAudit(c: Candidate, k: Mechanical) { c.state.Judgeable? == (AllValid(k) && k.codes == [] && k.parsed.Some?) }

  predicate CandidateAudit(env: Env, m: PairManifest, task: string, ms: seq<Mechanical>, c: Candidate, e: Unblinding) {
    && PacketAudit(env, c.packet) && c.packetSha == env.h.packet(c.packet) && c.viewSha == env.h.view(c.view.body) == c.view.sha
    && ViewAt(m.arms, e.arm) == Some(c.view)
    && MechanicalBy(env.h, ms, c.mechanical).Some? && StateAudit(c, MechanicalBy(env.h, ms, c.mechanical).value)
    && c.id == env.h.candidate(KeyOf(c, task))
  }

  function CandidateOfEntry(e: Unblinding): string { e.candidate }

  /** The loop over candidates beside their entries. */
  predicate CandidatesAudit(env: Env, m: PairManifest, task: string, ms: seq<Mechanical>, cs: seq<Candidate>, es: seq<Unblinding>)
    decreases |cs|
  {
    cs == [] || es == [] || (CandidateAudit(env, m, task, ms, cs[0], es[0]) && CandidatesAudit(env, m, task, ms, cs[1..], es[1..]))
  }

  predicate BatchAudit(env: Env, m: PairManifest, ms: seq<Mechanical>, b: Batch, r: Reverse) {
    && r.batch == b.id && Map(r.entries, CandidateOfEntry) == Map(b.candidates, IdOf)
    && EntryArms(r.entries) == ViewArms(m.arms)
    && CandidatesAudit(env, m, b.task, ms, b.candidates, r.entries)
  }

  predicate JudgeAudit(env: Env, x: Scored) {
    && CallAudit(env, x.judge, JudgeRequest(env, x.batch))
    && (x.judge.execution.present ==>
          var d := DecodeJudgement(env, x.judge.raw, x.batch);
          d.Success? && x.judgement == Some(d.value.value) && x.judge.execution.parsed == Some(d.value.sha))
  }

  /** Utility and primary, computed again from the raw judge bytes and the mechanical scores. */
  predicate ScoresReplay(env: Env, x: Scored) {
    var e := x.judge.execution;
    var decoded := if e.present && DecodeJudgement(env, x.judge.raw, x.batch).Success?
                   then Some(DecodeJudgement(env, x.judge.raw, x.batch).value.value) else None;
    var utility := UtilityOf(x.batch, x.permutation, decoded, e.timeout || e.exit != 0 || x.judge.raw == []);
    x.utility == utility && x.primary == PrimaryOf(env.h, [x.slot0.mechanical, x.slot1.mechanical], utility)
  }

  predicate ScoredAudit(env: Env, rs: Records, x: Scored) {
    && SlotAudit(env, rs.pair, 0, rs.packet0, x.slot0) && SlotAudit(env, rs.pair, 1, rs.packet1, x.slot1)
    && OpportunityReplays(rs.pair.opportunity, [rs.packet0, rs.packet1])
    && BatchAudit(env, rs.pair, [x.slot0.mechanical, x.slot1.mechanical], x.batch, x.permutation)
    && JudgeAudit(env, x) && ScoresReplay(env, x)
  }

  /** `audit_records`, on records of the set its terminal state calls for. */
  predicate Audit(env: Env, rs: Records, s: A.SealBody) {
    && BaseAudit(env, rs, s)
    && match rs.scored
       case None => s.terminal == "model_ineligible" && !rs.budget.eligible
       case Some(x) => s.terminal == "sealed" && rs.budget.eligible && ScoredAudit(env, rs, x)
  }

  // ---- What a run stands on ----------------------------------------------------------------------------------------

  /** Identities are apart and parsing undoes canonical encoding. */
  ghost predicate Standing(env: Env) {
    && IdsApart(env.n) && PayloadIdsApart(env.n) && ScoreIdsApart(env.h)
    && (forall t :: env.arm(t, "baseline_diff") != env.arm(t, "subject_windows"))
    && (forall r :: env.parseResponse(env.encodeResponse(r)) == Some(r))
  }

  /** What Stage 0 writes: a resolved root, canonical obligation bytes, and spans from line 1 on. */
  ghost predicate FromStage0(env: Env, i: Inputs) {
    && env.resolve(i.launch.root) == i.launch.root && WT.ValidSpans(i.baseline)
    && (forall r :: env.parse(i.rawObligation) == Some(r) ==> i.rawObligation == env.encode(r))
  }

  // ---- Calls replay ---------------------------------------------------------------------------------------------------

  lemma TokensAreValid(usage: seq<(string, int)>)
    requires forall u :: u in usage ==> u.1 >= 0
    ensures TokensValid(TokensOf(usage))
  {
    var names := Map(usage, NameOf);
    CountsNotNegative(usage, "input_tokens");
    CountsNotNegative(usage, "output_tokens");
    CountsNotNegative(usage, "cache_tokens");
    if usage != [] {
      var last := usage[|usage| - 1];
      assert names[|usage| - 1] == last.0 && last.0 in names;
    }
  }

  lemma {:induction false} CountsNotNegative(usage: seq<(string, int)>, name: string)
    requires forall u :: u in usage ==> u.1 >= 0
    ensures NotNegative(CountOf(usage, name))
    ensures usage != [] && usage[|usage| - 1].0 == name ==> CountOf(usage, name).Some?
  {
    if usage != [] {
      assert usage[|usage| - 1] in usage;
      CountsNotNegative(usage[..|usage| - 1], name);
    }
  }

  /** What the recorder accepted of a call, the auditor accepts of its records. */
  lemma CallReplays(env: Env, call: Call, expected: Request, sha: Option<string>)
    requires Standing(env) && BackendAgrees(env, call, expected)
    ensures CallAudit(env, CallOf(env, call, sha), expected)
  {
    var u := call.response.usage;
    assert forall x :: x in UsageList(u) ==> x.1 >= 0;
    TokensAreValid(UsageList(u));
  }

  // ---- Slots replay ---------------------------------------------------------------------------------------------------

  lemma ReviewReplays(env: Env, unit: string, o: Opportunity, s: Side, call: Call)
    ensures ReviewAudit(env, SlotOf(env, unit, o, s, call), s.packet)
  {}

  lemma SlotReplays(env: Env, unit: string, m: PairManifest, slot: nat, o: Opportunity, s: Side, call: Call)
    requires Standing(env) && BackendAgrees(env, call, ReviewRequest(env, s.packet))
    requires slot < |m.slotMap| && m.slotMap[slot] == s.arm && ViewAt(m.arms, s.arm) == Some(s.view)
    ensures SlotAudit(env, m, slot, s.packet, SlotOf(env, unit, o, s, call))
  {
    CallReplays(env, call, ReviewRequest(env, s.packet), ShaOf(ReviewIn(env, call.reply, s.packet).0));
    ReviewReplays(env, unit, o, s, call);
  }

  // ---- The batch replays ------------------------------------------------------------------------------------------------

  lemma MechanicalFound(h: ScoreNames, x: Mechanical, y: Mechanical, m: Mechanical)
    requires ScoreIdsApart(h) && (m == x || m == y)
    ensures MechanicalBy(h, [x, y], h.mechanical(m)) == Some(m)
  {
    assert [x, y][..1] == [x];
  }

  /** A seat's candidate passes the audit beside its entry. */
  lemma CandidateReplays(env: Env, unit: string, m: PairManifest, o: Opportunity, s: Side, call: Call, ms: seq<Mechanical>)
    requires PacketAudit(env, s.packet) && s.view.sha == env.h.view(s.view.body) && ViewAt(m.arms, s.arm) == Some(s.view)
    requires MechanicalBy(env.h, ms, env.h.mechanical(MechanicalIn(env, unit, o, s, call))) == Some(MechanicalIn(env, unit, o, s, call))
    ensures var seat := SeatOf(env, unit, o, s, call);
            CandidateAudit(env, m, s.packet.task, ms, seat.candidate, EntryOf(seat))
  {}

  function EntryArms(entries: seq<Unblinding>): set<string> { set e | e in entries :: e.arm }

  lemma ArmsOfTwo(e: Unblinding, f: Unblinding)
    ensures EntryArms([e, f]) == {e.arm, f.arm}
  {
    assert e in [e, f] && f in [e, f];
  }

  lemma CandidatesOfTwo(env: Env, m: PairManifest, task: string, ms: seq<Mechanical>, c: Candidate, d: Candidate, e: Unblinding, f: Unblinding)
    requires CandidateAudit(env, m, task, ms, c, e) && CandidateAudit(env, m, task, ms, d, f)
    ensures CandidatesAudit(env, m, task, ms, [c, d], [e, f])
  {
    assert [c, d][1..] == [d] && [e, f][1..] == [f];
    assert CandidatesAudit(env, m, task, ms, [d], [f]);
  }

  lemma TwoSeatsReplay(env: Env, m: PairManifest, ms: seq<Mechanical>, task: string, x: Seat, y: Seat)
    requires CandidateAudit(env, m, task, ms, x.candidate, EntryOf(x)) && CandidateAudit(env, m, task, ms, y.candidate, EntryOf(y))
    requires ViewArms(m.arms) == {x.arm, y.arm}
    ensures var b := BatchOf(env.h, task, Map([x, y], CandidateIn));
            BatchAudit(env, m, ms, b, ReverseFor(b, [x, y]))
  {
    var b := BatchOf(env.h, task, Map([x, y], CandidateIn));
    var r := ReverseFor(b, [x, y]);
    assert b.candidates == [x.candidate, y.candidate] && r.entries == [EntryOf(x), EntryOf(y)];
    assert Map(r.entries, CandidateOfEntry) == Map(b.candidates, IdOf);
    ArmsOfTwo(EntryOf(x), EntryOf(y));
    CandidatesOfTwo(env, m, task, ms, x.candidate, y.candidate, EntryOf(x), EntryOf(y));
  }

  lemma BatchReplays(env: Env, m: PairManifest, ms: seq<Mechanical>, task: string, x: Seat, y: Seat, reversed: bool)
    requires CandidateAudit(env, m, task, ms, x.candidate, EntryOf(x)) && CandidateAudit(env, m, task, ms, y.candidate, EntryOf(y))
    requires ViewArms(m.arms) == {x.arm, y.arm}
    ensures var seats := Seated(x, y, reversed);
            var b := BatchOf(env.h, task, Map(seats, CandidateIn));
            BatchAudit(env, m, ms, b, ReverseFor(b, seats))
  {
    SeatedIsOneOrder(x, y, reversed);
    TwoSeatsReplay(env, m, ms, task, x, y);
    TwoSeatsReplay(env, m, ms, task, y, x);
  }

  // ---- The judge replays ----------------------------------------------------------------------------------------------

  lemma JudgeReplays(env: Env, unit: string, p: Prepared, call0: Call, call1: Call, judgeCall: Call)
    requires Standing(env)
    requires BackendAgrees(env, judgeCall, JudgeRequest(env, BatchFor(env, p, SeatsOf(env, unit, p, call0, call1))))
    ensures JudgeAudit(env, ScoredOf(env, unit, p, call0, call1, judgeCall)) && ScoresReplay(env, ScoredOf(env, unit, p, call0, call1, judgeCall))
  {
    var batch := BatchFor(env, p, SeatsOf(env, unit, p, call0, call1));
    CallReplays(env, judgeCall, JudgeRequest(env, batch), ShaOf(JudgementIn(env, judgeCall.reply, batch)));
  }

  // ---- Preparation replays --------------------------------------------------------------------------------------------

  /** The two arms are as `_arm` makes them, over plans without repeated spans. */
  ghost predicate ArmsStand(env: Env, i: Inputs, o: F.Obligation, account: WB.Account, arms: (Arm, Arm)) {
    && Made(env.n, i.blobs, account.core, [], CoreProjection(env, i.launch.unit, account.core), env.task(i.launch.unit),
            ArmA(env, env.task(i.launch.unit)), env.baselineScope(env.task(i.launch.unit)), arms.0)
    && Made(env.n, i.blobs, account.treatment, o.references, ObligationProjection(env, o), env.task(i.launch.unit),
            ArmB(env, env.task(i.launch.unit)), o.scope, arms.1)
  }

  lemma CalleeSpanIsProper(env: Env, unit: string, o: F.Obligation)
    requires F.Acceptable(env.c, env.production, env.valid, unit, o) && F.CalleeSpec(env.names, o).Some?
    ensures 1 <= F.CalleeSpec(env.names, o).value.body.start <= F.CalleeSpec(env.names, o).value.body.end
  {
    var subjects := o.projection.body.subjects;
    FirstCalleeIsSubject(subjects);
    assert C.CheckSubjects(subjects) == None;
    assert C.SubjectValid(F.FirstCallee(subjects).value);
  }

  lemma {:induction false} FirstCalleeIsSubject(subjects: seq<C.Subject>)
    ensures F.FirstCallee(subjects).Some? ==> F.FirstCallee(subjects).value in subjects
  {
    if subjects != [] { FirstCalleeIsSubject(subjects[1..]); }
  }

  /** Neither plan repeats a span. */
  lemma PlansApart(env: Env, i: Inputs, o: F.Obligation)
    requires FromStage0(env, i) && F.Acceptable(env.c, env.production, env.valid, i.launch.unit, o) && AccountFor(env, i, o).Success?
    ensures SpotsApart(AccountFor(env, i, o).value.core) && SpotsApart(AccountFor(env, i, o).value.treatment)
    ensures Distinct(Map(AccountFor(env, i, o).value.core, BodyOf)) && Distinct(Map(AccountFor(env, i, o).value.treatment, BodyOf))
  {
    var bytes, callee := WT.Measured(i.blobs), F.CalleeSpec(env.names, o).value;
    CalleeSpanIsProper(env, i.launch.unit, o);
    WT.MeasuredIsMonotone(i.blobs);
    var specs := i.baseline + [callee];
    assert WT.ValidSpans(specs);
    PlanSpotsApart(bytes, env.names, specs);
    WT.PlanIsValid(bytes, env.names, specs);
    var core := W.Union(bytes, env.names, specs).value;
    SourcesHaveSpans(env, i.launch.unit, o);
    assert WT.ValidSpans(core + o.sources);
    PlanSpotsApart(bytes, env.names, core + o.sources);
  }

  lemma SourcesHaveSpans(env: Env, unit: string, o: F.Obligation)
    requires F.Acceptable(env.c, env.production, env.valid, unit, o)
    ensures WT.ValidSpans(o.sources)
  {
    assert forall s :: s in o.sources ==> F.SpecValid(env.production, s);
  }

  /** `_arm` never meets a repeated spec. */
  lemma ArmsAlwaysStand(env: Env, i: Inputs, o: F.Obligation)
    requires FromStage0(env, i) && F.Acceptable(env.c, env.production, env.valid, i.launch.unit, o) && AccountFor(env, i, o).Success?
    ensures ArmsOf(env, i, o, AccountFor(env, i, o).value).Success?
    ensures ArmsStand(env, i, o, AccountFor(env, i, o).value, ArmsOf(env, i, o, AccountFor(env, i, o).value).value)
  {
    PlansApart(env, i, o);
  }

  lemma ObligationProjectionIsSound(env: Env, unit: string, o: F.Obligation)
    requires F.Acceptable(env.c, env.production, env.valid, unit, o)
    ensures ObligationProjection(env, o).canonical == ObligationProjection(env, o).computed
  {
    assert C.Validate(env.c, o.projection).Success?;
  }

  lemma RegistryReasons(n: Names, task: string, m: Missing)
    ensures forall l :: l in LossesFor(n, REGISTRY, task, m) ==> l.reason != ROUTINE
    ensures m.projection.canonical == m.projection.computed ==> forall l :: l in LossesFor(n, REGISTRY, task, m) ==> l.reason != PROJECTION_ENTRY.reason
  {
    RegistryLosses(n, task, m);
  }

  /** The baseline arm can only have lost source bodies; neither arm ever declares a projection loss,
      because both projections carry the hash of their own body. */
  lemma ArmsOfARun(env: Env, i: Inputs, o: F.Obligation, account: WB.Account, arms: (Arm, Arm))
    requires ArmsStand(env, i, o, account, arms) && F.Acceptable(env.c, env.production, env.valid, i.launch.unit, o)
    ensures RunArms(arms.0, arms.1)
    ensures forall l :: l in arms.0.losses + arms.1.losses ==> l.reason != PROJECTION_ENTRY.reason
  {
    var task := env.task(i.launch.unit);
    var core := CoreProjection(env, i.launch.unit, account.core);
    BaselineLosesOnlySources(env.n, i.blobs, account.core, core, task, ArmA(env, task), env.baselineScope(task), arms.0);
    RegistryReasons(env.n, task, MissingOf(env.n, i.blobs, account.core, [], core));
    RegistryReasons(env.n, task, MissingOf(env.n, i.blobs, account.treatment, o.references, ObligationProjection(env, o)));
    ObligationProjectionIsSound(env, i.launch.unit, o);
  }

  // ---- Every finalized run replays --------------------------------------------------------------------------------------

  lemma ViewsOfTwo(x: ArmView, y: ArmView)
    requires x.arm != y.arm
    ensures var arms := Sort([x, y], ArmViewLe);
            && (arms == [x, y] || arms == [y, x]) && Distinct(Map(arms, ArmOfView)) && ViewArms(arms) == {x.arm, y.arm}
            && ViewAt(arms, x.arm) == Some(x.view) && ViewAt(arms, y.arm) == Some(y.view)
  {
    SortTwo(x, y, ArmViewLe);
    assert [x, y][..1] == [x] && [y, x][..1] == [y];
    assert x in [x, y] && y in [x, y] && x in [y, x] && y in [y, x];
    assert ViewArms([x, y]) == {x.arm, y.arm} && ViewArms([y, x]) == {x.arm, y.arm};
  }

  /** A pair as `Prepare` leaves it. */
  ghost predicate Ready(env: Env, i: Inputs, o: F.Obligation, p: Prepared) {
    && p.task == env.task(i.launch.unit) && p.a.arm != p.b.arm
    && p.a.view.sha == env.h.view(p.a.view.body) && p.b.view.sha == env.h.view(p.b.view.body)
    && p.a.packet.task == p.task && p.b.packet.task == p.task
    && PacketAudit(env, p.a.packet) && PacketAudit(env, p.b.packet)
    && p.counts == (PacketBytes(p.a.packet), PacketBytes(p.b.packet))
    && OpportunityReplays(p.opportunity, if p.swapped then [p.b.packet, p.a.packet] else [p.a.packet, p.b.packet])
  }

  /** One arm's packet: sound, and of the planner's byte count. */
  lemma PacketOfArm(n: Names, blobs: W.Blobs, specs: seq<W.Spec>, refs: seq<F.Reference>, projection: Projected, task: string, id: string,
                    scope: string, a: Arm, comparable: bool, p: Packet)
    requires IdsApart(n) && PayloadIdsApart(n) && SpotsApart(specs)
    requires Made(n, blobs, specs, refs, projection, task, id, scope, a) && p == PacketOf(n, WithFlags(a, comparable), task)
    ensures PacketSound(n, p) && PacketBytes(p) == WB.TotalBytes(WT.Measured(blobs), specs)
  {
    ArmPacketIsSound(n, blobs, specs, refs, projection, task, id, scope, a, comparable);
    PacketBytesAreAdmitted(n, blobs, specs, refs, projection, task, id, scope, a, comparable);
  }

  lemma CountsOfAccount(env: Env, i: Inputs, o: F.Obligation, account: WB.Account)
    requires AccountFor(env, i, o) == Success(account)
    ensures account.coreBytes == WB.TotalBytes(WT.Measured(i.blobs), account.core)
    ensures account.treatmentBytes == WB.TotalBytes(WT.Measured(i.blobs), account.treatment)
  {}

  /** Both packets are sound, and their bytes are the planner's counts. */
  lemma PacketsOfPair(env: Env, i: Inputs, o: F.Obligation, account: WB.Account, arms: (Arm, Arm), pa: Packet, pb: Packet)
    requires IdsApart(env.n) && PayloadIdsApart(env.n) && ArmsStand(env, i, o, account, arms)
    requires SpotsApart(account.core) && SpotsApart(account.treatment) && AccountFor(env, i, o) == Success(account)
    requires (pa, pb) == PacketPair(env.n, arms.0, arms.1, env.task(i.launch.unit))
    ensures PacketSound(env.n, pa) && PacketSound(env.n, pb) && account.coreBytes == PacketBytes(pa) && account.treatmentBytes == PacketBytes(pb)
  {
    var task, comparable := env.task(i.launch.unit), OpportunityOf(arms.0, arms.1).comparable;
    CountsOfAccount(env, i, o, account);
    PacketOfArm(env.n, i.blobs, account.core, [], CoreProjection(env, i.launch.unit, account.core), task, ArmA(env, task), env.baselineScope(task),
                arms.0, comparable, pa);
    PacketOfArm(env.n, i.blobs, account.treatment, o.references, ObligationProjection(env, o), task, ArmB(env, task), o.scope, arms.1, comparable, pb);
  }

  /** `Prepare`, taken apart. */
  lemma PreparedParts(env: Env, i: Inputs, o: F.Obligation) returns (account: WB.Account, arms: (Arm, Arm), p: Prepared)
    requires Prepare(env, i, o).Success?
    ensures AccountFor(env, i, o) == Success(account) && ArmsOf(env, i, o, account) == Success(arms)
    ensures p == PreparedFrom(env, i, o, account, arms) && Prepare(env, i, o) == Success(p)
    ensures !env.lens(p.a.packet) && !env.lens(p.b.packet)
  {
    var accounted := AccountFor(env, i, o);
    account := accounted.value;
    var made := ArmsOf(env, i, o, account);
    arms := made.value;
    p := PreparedFrom(env, i, o, account, arms);
    Unrefused(env, p.a.packet);
    Unrefused(env, p.b.packet);
  }

  lemma Unrefused(env: Env, p: Packet)
    ensures PacketRefusal(env, p) == None ==> !env.lens(p)
  {}

  lemma ArmIdsOf(env: Env, i: Inputs, o: F.Obligation, account: WB.Account, arms: (Arm, Arm))
    requires ArmsStand(env, i, o, account, arms)
    ensures arms.0.id == ArmA(env, env.task(i.launch.unit)) && arms.1.id == ArmB(env, env.task(i.launch.unit))
  {}

  lemma ReadyFromParts(env: Env, i: Inputs, o: F.Obligation, account: WB.Account, arms: (Arm, Arm), p: Prepared)
    requires p == PreparedFrom(env, i, o, account, arms) && arms.0.id != arms.1.id && !env.lens(p.a.packet) && !env.lens(p.b.packet)
    requires PacketSound(env.n, p.a.packet) && PacketSound(env.n, p.b.packet)
    requires account.coreBytes == PacketBytes(p.a.packet) && account.treatmentBytes == PacketBytes(p.b.packet)
    requires OpportunityReplays(p.opportunity, if p.swapped then [p.b.packet, p.a.packet] else [p.a.packet, p.b.packet])
    ensures Ready(env, i, o, p)
  {}

  lemma PreparedIsReady(env: Env, i: Inputs, o: F.Obligation)
    requires Standing(env) && FromStage0(env, i) && F.Acceptable(env.c, env.production, env.valid, i.launch.unit, o)
    requires Prepare(env, i, o).Success?
    ensures Ready(env, i, o, Prepare(env, i, o).value)
  {
    var account, arms, p := PreparedParts(env, i, o);
    ArmsAlwaysStand(env, i, o);
    PlansApart(env, i, o);
    ArmsOfARun(env, i, o, account, arms);
    ArmIdsOf(env, i, o, account, arms);
    OpportunityAgrees(env.n, arms.0, arms.1, p.task, p.swapped);
    PacketsOfPair(env, i, o, account, arms, p.a.packet, p.b.packet);
    ReadyFromParts(env, i, o, account, arms, p);
  }

  /** A manifest over two different arms, each with the view it was given. */
  lemma ManifestReplays(env: Env, l: Launch, o: F.Obligation, m: PairManifest, x: ArmView, y: ArmView)
    requires x.arm != y.arm && m.arms == Sort([x, y], ArmViewLe) && x.view.sha == env.h.view(x.view.body) && y.view.sha == env.h.view(y.view.body)
    requires m.task == env.task(l.unit) && m.run == env.run(l.unit, m.task, l.stageSha) && m.unit == l.unit && m.projection == o.projection.canonical
    requires m.slotMap == [x.arm, y.arm] || m.slotMap == [y.arm, x.arm]
    ensures PairAudit(env, l, o, m, m.run) && ViewArms(m.arms) == {x.arm, y.arm}
    ensures ViewAt(m.arms, x.arm) == Some(x.view) && ViewAt(m.arms, y.arm) == Some(y.view)
  {
    ViewsOfTwo(x, y);
  }

  lemma PairReplays(env: Env, i: Inputs, o: F.Obligation, p: Prepared)
    requires Ready(env, i, o, p)
    ensures var m := PairFor(env, i.launch, o, p);
            && PairAudit(env, i.launch, o, m, m.run) && ViewArms(m.arms) == {p.a.arm, p.b.arm}
            && ViewAt(m.arms, p.a.arm) == Some(p.a.view) && ViewAt(m.arms, p.b.arm) == Some(p.b.view)
  {
    ManifestReplays(env, i.launch, o, PairFor(env, i.launch, o, p), ArmView(p.a.arm, p.a.view), ArmView(p.b.arm, p.b.view));
  }

  lemma LaunchReplays(env: Env, i: Inputs, o: F.Obligation)
    requires FromStage0(env, i) && LaunchValid(i.launch) && ReadObligation(env, i) == Success(o)
    ensures LaunchAudit(env, i.launch, Provenance(env.resolve(i.launch.root), i.launch.base, i.launch.head), o, i.launch.stageSha)
  {}

  lemma BudgetReplays(env: Env, i: Inputs, o: F.Obligation, p: Prepared)
    requires Ready(env, i, o, p)
    ensures BudgetAudit(env, i.launch.unit, BudgetFor(env, i.launch.unit, p), First(p).packet, Second(p).packet)
  {}

  lemma BaseReplays(env: Env, i: Inputs, o: F.Obligation, p: Prepared, base: Records, s: A.SealBody)
    requires FromStage0(env, i) && LaunchValid(i.launch) && ReadObligation(env, i) == Success(o) && Ready(env, i, o, p)
    requires base == BaseRecords(env, i, o, p) && s.stage == i.launch.stageSha && s.run == base.pair.run
    ensures BaseAudit(env, base, s)
  {
    LaunchReplays(env, i, o);
    PairReplays(env, i, o, p);
    BudgetReplays(env, i, o, p);
  }

  lemma SlotsReplay(env: Env, i: Inputs, o: F.Obligation, p: Prepared, call0: Call, call1: Call)
    requires Standing(env) && Ready(env, i, o, p)
    requires BackendAgrees(env, call0, ReviewRequest(env, First(p).packet)) && BackendAgrees(env, call1, ReviewRequest(env, Second(p).packet))
    ensures var m := PairFor(env, i.launch, o, p);
            && SlotAudit(env, m, 0, First(p).packet, SlotOf(env, i.launch.unit, p.opportunity, First(p), call0))
            && SlotAudit(env, m, 1, Second(p).packet, SlotOf(env, i.launch.unit, p.opportunity, Second(p), call1))
  {
    var m := PairFor(env, i.launch, o, p);
    PairReplays(env, i, o, p);
    SlotReplays(env, i.launch.unit, m, 0, p.opportunity, First(p), call0);
    SlotReplays(env, i.launch.unit, m, 1, p.opportunity, Second(p), call1);
  }

  lemma CandidatesReplay(env: Env, i: Inputs, o: F.Obligation, p: Prepared, call0: Call, call1: Call)
    requires Standing(env) && Ready(env, i, o, p)
    ensures var unit, m := i.launch.unit, PairFor(env, i.launch, o, p);
            var seats := SeatsOf(env, unit, p, call0, call1);
            var ms := [MechanicalIn(env, unit, p.opportunity, First(p), call0), MechanicalIn(env, unit, p.opportunity, Second(p), call1)];
            BatchAudit(env, m, ms, BatchFor(env, p, seats), ReverseFor(BatchFor(env, p, seats), seats))
  {
    var unit, m := i.launch.unit, PairFor(env, i.launch, o, p);
    var callA, callB := if p.swapped then call1 else call0, if p.swapped then call0 else call1;
    var first, second := MechanicalIn(env, unit, p.opportunity, First(p), call0), MechanicalIn(env, unit, p.opportunity, Second(p), call1);
    PairReplays(env, i, o, p);
    MechanicalFound(env.h, first, second, MechanicalIn(env, unit, p.opportunity, p.a, callA));
    MechanicalFound(env.h, first, second, MechanicalIn(env, unit, p.opportunity, p.b, callB));
    CandidateReplays(env, unit, m, p.opportunity, p.a, callA, [first, second]);
    CandidateReplays(env, unit, m, p.opportunity, p.b, callB, [first, second]);
    BatchReplays(env, m, [first, second], p.task, SeatOf(env, unit, p.opportunity, p.a, callA), SeatOf(env, unit, p.opportunity, p.b, callB),
                 env.judgeBit(p.task));
  }

  /** `ScoredRecords`, taken apart. */
  lemma ScoredParts(env: Env, i: Inputs, t: Transport, p: Prepared, base: Records) returns (call0: Call, call1: Call, judgeCall: Call, x: Scored)
    requires ScoredRecords(env, i, t, p, base).Success?
    ensures BackendAgrees(env, call0, ReviewRequest(env, First(p).packet)) && BackendAgrees(env, call1, ReviewRequest(env, Second(p).packet))
    ensures BackendAgrees(env, judgeCall, JudgeRequest(env, BatchFor(env, p, SeatsOf(env, i.launch.unit, p, call0, call1))))
    ensures x == ScoredOf(env, i.launch.unit, p, call0, call1, judgeCall) && ScoredRecords(env, i, t, p, base) == Success(base.(scored := Some(x)))
  {
    call0, call1 := t.review(First(p).packet, 0), t.review(Second(p).packet, 1);
    judgeCall := t.judge(BatchFor(env, p, SeatsOf(env, i.launch.unit, p, call0, call1)));
    x := ScoredOf(env, i.launch.unit, p, call0, call1, judgeCall);
  }

  lemma ScoresOfARunReplay(env: Env, i: Inputs, o: F.Obligation, p: Prepared, base: Records, call0: Call, call1: Call, judgeCall: Call, x: Scored)
    requires Standing(env) && Ready(env, i, o, p) && base == BaseRecords(env, i, o, p)
    requires BackendAgrees(env, call0, ReviewRequest(env, First(p).packet)) && BackendAgrees(env, call1, ReviewRequest(env, Second(p).packet))
    requires BackendAgrees(env, judgeCall, JudgeRequest(env, BatchFor(env, p, SeatsOf(env, i.launch.unit, p, call0, call1))))
    requires x == ScoredOf(env, i.launch.unit, p, call0, call1, judgeCall)
    ensures ScoredAudit(env, base.(scored := Some(x)), x)
  {
    SlotsReplay(env, i, o, p, call0, call1);
    CandidatesReplay(env, i, o, p, call0, call1);
    JudgeReplays(env, i.launch.unit, p, call0, call1, judgeCall);
  }

  /** `RecordsOf`, taken apart. */
  lemma RunParts(env: Env, i: Inputs, t: Transport) returns (o: F.Obligation, p: Prepared, base: Records)
    requires RecordsOf(env, i, t).Success?
    ensures LaunchValid(i.launch) && ReadObligation(env, i) == Success(o) && Prepare(env, i, o) == Success(p) && base == BaseRecords(env, i, o, p)
    ensures RecordsOf(env, i, t) == if base.budget.eligible then ScoredRecords(env, i, t, p, base) else Success(base)
  {
    o := ReadObligation(env, i).value;
    p := Prepare(env, i, o).value;
    base := BaseRecords(env, i, o, p);
  }

  lemma ReadIsAcceptable(env: Env, i: Inputs, o: F.Obligation)
    requires ReadObligation(env, i) == Success(o)
    ensures F.Acceptable(env.c, env.production, env.valid, i.launch.unit, o)
  {}

  /** The seal of a run's records. */
  predicate Seals(s: A.SealBody, l: Launch, rs: Records) {
    s.stage == l.stageSha && s.run == rs.pair.run && s.terminal == TerminalOf(rs)
  }

  lemma AuditOfBase(env: Env, base: Records, s: A.SealBody)
    requires BaseAudit(env, base, s) && base.scored == None && !base.budget.eligible && s.terminal == "model_ineligible"
    ensures Audit(env, base, s)
  {}

  lemma AuditOfScored(env: Env, base: Records, rs: Records, x: Scored, s: A.SealBody)
    requires BaseAudit(env, base, s) && rs == base.(scored := Some(x)) && base.budget.eligible && s.terminal == "sealed"
    requires ScoredAudit(env, rs, x)
    ensures Audit(env, rs, s)
  {}

  lemma IneligibleRunReplays(env: Env, i: Inputs, o: F.Obligation, p: Prepared, base: Records, s: A.SealBody)
    requires FromStage0(env, i) && LaunchValid(i.launch) && ReadObligation(env, i) == Success(o) && Ready(env, i, o, p)
    requires base == BaseRecords(env, i, o, p) && !base.budget.eligible && Seals(s, i.launch, base)
    ensures Audit(env, base, s)
  {
    BaseReplays(env, i, o, p, base, s);
    AuditOfBase(env, base, s);
  }

  /** The records of calls the recorder accepted pass the audit. */
  lemma ScoredRunReplays(env: Env, i: Inputs, o: F.Obligation, p: Prepared, base: Records, rs: Records, s: A.SealBody, call0: Call, call1: Call,
                         judgeCall: Call, x: Scored)
    requires Standing(env) && FromStage0(env, i) && LaunchValid(i.launch) && ReadObligation(env, i) == Success(o) && Ready(env, i, o, p)
    requires base == BaseRecords(env, i, o, p) && base.budget.eligible && rs == base.(scored := Some(x)) && Seals(s, i.launch, rs)
    requires BackendAgrees(env, call0, ReviewRequest(env, First(p).packet)) && BackendAgrees(env, call1, ReviewRequest(env, Second(p).packet))
    requires BackendAgrees(env, judgeCall, JudgeRequest(env, BatchFor(env, p, SeatsOf(env, i.launch.unit, p, call0, call1))))
    requires x == ScoredOf(env, i.launch.unit, p, call0, call1, judgeCall)
    ensures Audit(env, rs, s)
  {
    BaseReplays(env, i, o, p, base, s);
    ScoresOfARunReplay(env, i, o, p, base, call0, call1, judgeCall, x);
    AuditOfScored(env, base, rs, x, s);
  }

  lemma EligibleRunReplays(env: Env, i: Inputs, t: Transport, o: F.Obligation, p: Prepared, base: Records, rs: Records, s: A.SealBody)
    requires Standing(env) && FromStage0(env, i) && LaunchValid(i.launch) && ReadObligation(env, i) == Success(o) && Ready(env, i, o, p)
    requires base == BaseRecords(env, i, o, p) && base.budget.eligible && ScoredRecords(env, i, t, p, base) == Success(rs) && Seals(s, i.launch, rs)
    ensures Audit(env, rs, s)
  {
    var call0, call1, judgeCall, x := ScoredParts(env, i, t, p, base);
    ScoredRunReplays(env, i, o, p, base, rs, s, call0, call1, judgeCall, x);
  }

  /** A run, from what it read and prepared on. */
  lemma PreparedRunReplays(env: Env, i: Inputs, t: Transport, o: F.Obligation, p: Prepared, base: Records, rs: Records, s: A.SealBody)
    requires Standing(env) && FromStage0(env, i) && LaunchValid(i.launch) && ReadObligation(env, i) == Success(o) && Ready(env, i, o, p)
    requires base == BaseRecords(env, i, o, p) && Seals(s, i.launch, rs)
    requires Success(rs) == if base.budget.eligible then ScoredRecords(env, i, t, p, base) else Success(base)
    ensures Audit(env, rs, s)
  {
    if base.budget.eligible {
      EligibleRunReplays(env, i, t, o, p, base, rs, s);
    } else {
      IneligibleRunReplays(env, i, o, p, base, s);
    }
  }

  /** Replay completeness: whatever the transport answers, the records a run finalizes, scored or over the
      byte ceiling, pass the audit, which recomputes budget, opportunity, utility and primary. */
  lemma EveryRunReplays(env: Env, i: Inputs, t: Transport, rs: Records, s: A.SealBody)
    requires Standing(env) && FromStage0(env, i) && RecordsOf(env, i, t) == Success(rs) && Seals(s, i.launch, rs)
    ensures Audit(env, rs, s)
  {
    var o, p, base := RunParts(env, i, t);
    ReadIsAcceptable(env, i, o);
    PreparedIsReady(env, i, o);
    PreparedRunReplays(env, i, t, o, p, base, rs, s);
  }

  /** What a reviewer reply decodes to is a valid disposition. */
  lemma DecodedIsValid(env: Env, r: Reply, p: Packet)
    ensures ReviewIn(env, r, p).0.Some? ==> DispositionValid(ReviewIn(env, r, p).0.value.value.disposition)
  {
    if ReviewIn(env, r, p).0.Some? {
      assert CheckReview(ReviewIn(env, r, p).0.value.value, p) == None;
    }
  }

  /** In a run, an abstention without failure codes cites exactly the one task loss both arms declare: a
      lost source body. */
  lemma CleanAbstentionOfARun(env: Env, i: Inputs, o: F.Obligation, account: WB.Account, arms: (Arm, Arm), p: Prepared, treated: bool, call: Call,
                              decoded: Decoded<Review>, codes: seq<Code>)
    requires ArmsStand(env, i, o, account, arms) && F.Acceptable(env.c, env.production, env.valid, i.launch.unit, o)
    requires p == PreparedFrom(env, i, o, account, arms)
    requires var s := if treated then p.b else p.a;
             ReviewIn(env, call.reply, s.packet) == (Some(decoded), codes) && MechanicalIn(env, i.launch.unit, p.opportunity, s, call).codes == []
    requires decoded.value.disposition.Abstention?
    ensures |arms.0.losses| == 1 && |arms.1.losses| == 1 && MarkOf(arms.0.losses[0]) == MarkOf(arms.1.losses[0])
    ensures decoded.value.disposition.basis == [(if treated then arms.1 else arms.0).losses[0].id]
    ensures decoded.value.disposition.reason == SOURCE_ENTRY.reason
  {
    var s, x := if treated then p.b else p.a, if treated then arms.1 else arms.0;
    ArmsOfARun(env, i, o, account, arms);
    DecodedIsValid(env, call.reply, s.packet);
    CleanAbstentionCitesTheSharedLoss(env.h, env.norm, env.n, arms.0, arms.1, x, p.task, call.reply, decoded, codes, i.launch.unit, s.view.sha);
  }
}
