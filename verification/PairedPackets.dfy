/** Comparison opportunity, packets and byte budget of a pair, and what their replay recomputes. */
module PairedPackets {
  import opened Wrappers
  import opened Ordering
  import opened Grouping
  import opened PairedArms
  import W = WindowAlgebra
  import WB = WindowBytes
  import F = FrozenObligation

  // ---- Opportunity ------------------------------------------------------------------------------------------

  /** A task loss as its reason and question. */
  datatype Mark = Mark(reason: string, question: string)

  datatype Opportunity = Opportunity(comparable: bool, signatures: seq<seq<Mark>>, eligible: seq<seq<string>>)

  predicate MarkLe(a: Mark, b: Mark) {
    if a.reason != b.reason then TextLe(a.reason, b.reason) else TextLe(a.question, b.question)
  }

  function QuestionOf(l: Loss): string { if l.question.Some? then l.question.value else "" }
  function MarkOf(l: Loss): Mark { Mark(l.reason, QuestionOf(l)) }
  function MarkQuestion(m: Mark): string { m.question }

  function Signature(losses: seq<Loss>): seq<Mark> { Sort(Map(losses, MarkOf), MarkLe) }

  function Flagged(comparable: bool): Loss -> Loss { (l: Loss) => l.(eligible := comparable) }

  function WithFlags(a: Arm, comparable: bool): Arm { a.(losses := Map(a.losses, Flagged(comparable))) }

  function EligibleIn(a: Arm, comparable: bool): seq<string> {
    if comparable then Sort(Map(a.losses, QuestionOf), TextLe) else []
  }

  function OpportunityOf(a: Arm, b: Arm): Opportunity {
    var comparable := Signature(a.losses) == Signature(b.losses);
    Opportunity(comparable, [Signature(a.losses), Signature(b.losses)], [EligibleIn(a, comparable), EligibleIn(b, comparable)])
  }

  /** The loop that sets each loss's flag in place. */
  method SetFlags(a: Arm, comparable: bool) returns (flagged: Arm)
    ensures flagged == WithFlags(a, comparable)
  {
    var losses := a.losses;
    for i := 0 to |losses|
      invariant |losses| == |a.losses|
      invariant forall j :: 0 <= j < i ==> losses[j] == Flagged(comparable)(a.losses[j])
      invariant forall j :: i <= j < |losses| ==> losses[j] == a.losses[j]
    {
      losses := losses[i := losses[i].(eligible := comparable)];
    }
    return a.(losses := losses);
  }

  /** `_opportunity`. */
  method Compare(a: Arm, b: Arm) returns (o: Opportunity, a': Arm, b': Arm)
    ensures o == OpportunityOf(a, b)
    ensures a' == WithFlags(a, o.comparable) && b' == WithFlags(b, o.comparable)
  {
    var comparable := Signature(a.losses) == Signature(b.losses);
    a' := SetFlags(a, comparable);
    b' := SetFlags(b, comparable);
    o := Opportunity(comparable, [Signature(a.losses), Signature(b.losses)], [EligibleIn(a, comparable), EligibleIn(b, comparable)]);
  }

  // ---- Packets ---------------------------------------------------------------------------------------------------

  /** `_packet_with_schema`, apart from its constant fields. */
  function PacketOf(n: Names, a: Arm, task: string): Packet {
    var body := InventoryBody(a.sources, Sort([a.routine] + a.losses, LossLe));
    Packet(task, n.inventory(body), n.inventoryHash(body), body, a.payloads)
  }

  predicate PayloadSound(n: Names, p: Payload) {
    p.sha == n.sha(p.text) && p.length == |p.text| && p.id == n.payload(n.sha(p.text), |p.text|) && |p.text| >= 1
  }

  predicate SourceSound(n: Names, s: SourceRecord, payloads: map<string, Payload>) {
    && s.body.payload in payloads && s.body.bytes == payloads[s.body.payload].length && s.body.sha == payloads[s.body.payload].sha
    && 1 <= s.body.start <= s.body.end && s.id == n.source(s.body)
  }

  function ByPayloadId(payloads: seq<Payload>): map<string, Payload> {
    if payloads == [] then map[] else
    ByPayloadId(payloads[..|payloads| - 1])[payloads[|payloads| - 1].id := payloads[|payloads| - 1]]
  }

  /** Payloads and sources name each other exactly. */
  predicate Closed(n: Names, p: Packet) {
    var byId := ByPayloadId(p.payloads);
    && PayloadsSound(n, p.payloads) && (forall s :: s in p.inventory.sources ==> SourceSound(n, s, byId))
    && byId.Keys == set s | s in p.inventory.sources :: s.body.payload
  }

  datatype ClosureFailure = PayloadHashMismatch | PayloadMissing | PayloadLengthMismatch | ClosureInvalid

  function PayloadFailures(n: Names, x: Payload): (r: set<ClosureFailure>)
    ensures r == {} <==> PayloadSound(n, x)
  {
    if x.sha != n.sha(x.text) || x.length != |x.text| || x.id != n.payload(n.sha(x.text), |x.text|)
    then {PayloadHashMismatch} + (if |x.text| < 1 then {ClosureInvalid} else {})
    else if |x.text| < 1 then {ClosureInvalid} else {}
  }

  function SourceFailures(n: Names, s: SourceRecord, byId: map<string, Payload>): (r: set<ClosureFailure>)
    ensures r == {} <==> SourceSound(n, s, byId)
  {
    if s.body.payload !in byId then {PayloadMissing} else
    var p := byId[s.body.payload];
    var broken := s.body.start < 1 || s.body.end < s.body.start || s.id != n.source(s.body);
    if s.body.bytes != p.length || s.body.sha != p.sha
    then {PayloadLengthMismatch} + (if broken then {ClosureInvalid} else {})
    else if broken then {ClosureInvalid} else {}
  }

  lemma NoneInEither<T>(a: set<T>, b: set<T>)
    ensures a + b == {} <==> a == {} && b == {}
  {
    assert a <= a + b && b <= a + b;
  }

  predicate PayloadsSound(n: Names, payloads: seq<Payload>) { forall x :: x in payloads ==> PayloadSound(n, x) }

  lemma PayloadStep(n: Names, payloads: seq<Payload>, i: nat)
    requires i < |payloads|
    ensures PayloadsSound(n, payloads[..i + 1]) <==> PayloadsSound(n, payloads[..i]) && PayloadSound(n, payloads[i])
    ensures ByPayloadId(payloads[..i + 1]) == ByPayloadId(payloads[..i])[payloads[i].id := payloads[i]]
  {
    assert payloads[..i + 1] == payloads[..i] + [payloads[i]] && payloads[..i + 1][..i] == payloads[..i];
  }

  method CheckPayloads(n: Names, payloads: seq<Payload>) returns (failures: set<ClosureFailure>, byId: map<string, Payload>)
    ensures failures == {} <==> PayloadsSound(n, payloads)
    ensures byId == ByPayloadId(payloads)
  {
    failures, byId := {}, map[];
    for i := 0 to |payloads|
      invariant failures == {} <==> PayloadsSound(n, payloads[..i])
      invariant byId == ByPayloadId(payloads[..i])
    {
      var x := payloads[i];
      PayloadStep(n, payloads, i);
      NoneInEither(failures, PayloadFailures(n, x));
      failures, byId := failures + PayloadFailures(n, x), byId[x.id := x];
    }
    assert payloads[..|payloads|] == payloads;
  }

  method CheckSources(n: Names, sources: seq<SourceRecord>, byId: map<string, Payload>) returns (failures: set<ClosureFailure>, used: set<string>)
    ensures failures == {} <==> forall s :: s in sources ==> SourceSound(n, s, byId)
    ensures failures == {} ==> used == set s | s in sources :: s.body.payload
  {
    failures, used := {}, {};
    for i := 0 to |sources|
      invariant failures == {} <==> forall s :: s in sources[..i] ==> SourceSound(n, s, byId)
      invariant failures == {} ==> used == set s | s in sources[..i] :: s.body.payload
    {
      var s := sources[i];
      assert sources[..i + 1] == sources[..i] + [s];
      NoneInEither(failures, SourceFailures(n, s, byId));
      failures := failures + SourceFailures(n, s, byId);
      if s.body.payload in byId { used := used + {s.body.payload}; }
    }
    assert sources[..|sources|] == sources;
  }

  /** `validate_payload_closure`. */
  method ValidateClosure(n: Names, p: Packet) returns (failures: set<ClosureFailure>)
    ensures failures == {} <==> Closed(n, p)
  {
    var bad, byId := CheckPayloads(n, p.payloads);
    var worse, used := CheckSources(n, p.inventory.sources, byId);
    failures := bad + worse;
    NoneInEither(bad, worse);
    if byId.Keys != used {
      NoneInEither(failures, {ClosureInvalid});
      failures := failures + {ClosureInvalid};
    }
  }

  predicate IdOrdered(ids: seq<string>) { ids == Sort(ids, TextLe) && Distinct(ids) }

  /** The packet part of `_packet_audit`, apart from its constant fields and the lens. */
  predicate PacketSound(n: Names, p: Packet) {
    && IdOrdered(Map(p.inventory.sources, SourceIdOf))
    && IdOrdered(Map(p.inventory.losses, LossIdOf)) && IdOrdered(Map(p.payloads, PayloadIdOf))
    && p.inventoryId == n.inventory(p.inventory) && p.canonical == n.inventoryHash(p.inventory) && Closed(n, p)
  }

  // ---- Budget ----------------------------------------------------------------------------------------------------

  datatype Share = Share(packet: string, bytes: int, within: bool)
  datatype Budget = Budget(unit: string, shares: seq<Share>, eligible: bool)

  function BytesOf(s: SourceRecord): int { s.body.bytes }

  /** The byte count the auditor takes from a packet. */
  function PacketBytes(p: Packet): int { Sum(Map(p.inventory.sources, BytesOf)) }

  /** `_budget`, from the packets' hashes and the counts it is given. */
  function BudgetOf(unit: string, packets: (string, string), counts: (int, int)): Budget {
    Budget(unit, [Share(packets.0, counts.0, counts.0 <= W.MAX_SOURCE_BYTES), Share(packets.1, counts.1, counts.1 <= W.MAX_SOURCE_BYTES)],
           WB.ModelEligible(counts.0, counts.1))
  }

  // ---- One shared loss -------------------------------------------------------------------------------------------

  /** An arm as `_arm` makes it, over a plan's specs. */
  ghost predicate Made(n: Names, blobs: W.Blobs, specs: seq<W.Spec>, refs: seq<F.Reference>, projection: Projected, task: string, id: string, scope: string, a: Arm) {
    ArmOf(n, blobs, specs, refs, projection, task, id, scope) == Success(a)
  }

  lemma SortedEmpty(ids: seq<string>)
    ensures Sort(ids, TextLe) == [] <==> ids == []
  {
    TextLeIsTotalPreorder();
    SortSpec(ids, TextLe);
  }

  /** The registry unrolled: at most one loss per entry. */
  lemma RegistryLosses(n: Names, task: string, m: Missing)
    ensures LossesFor(n, REGISTRY, task, m) ==
              (if m.unavailable == [] then [] else [LossOf(n, SOURCE_ENTRY, task, Sort(m.unavailable, TextLe))]) +
              (if m.unresolved == [] then [] else [LossOf(n, REFERENCE_ENTRY, task, Sort(m.unresolved, TextLe))]) +
              (if m.projection.canonical == m.projection.computed then [] else [LossOf(n, PROJECTION_ENTRY, task, [m.projection.obstruction])])
  {
    assert REGISTRY == [] + [SOURCE_ENTRY] + [REFERENCE_ENTRY] + [PROJECTION_ENTRY];
    LossesStep(n, [], SOURCE_ENTRY, task, m);
    LossesStep(n, [] + [SOURCE_ENTRY], REFERENCE_ENTRY, task, m);
    LossesStep(n, [] + [SOURCE_ENTRY] + [REFERENCE_ENTRY], PROJECTION_ENTRY, task, m);
    SortedEmpty(m.unavailable);
    SortedEmpty(m.unresolved);
    assert Sort([m.projection.obstruction], TextLe) == [m.projection.obstruction];
  }

  lemma LossesStep(n: Names, entries: seq<Entry>, e: Entry, task: string, m: Missing)
    ensures LossesFor(n, entries + [e], task, m) ==
            LossesFor(n, entries, task, m) + (if Support(m, e.key) == [] then [] else [LossOf(n, e, task, Support(m, e.key))])
  {
    assert (entries + [e])[..|entries|] == entries;
  }

  /** The baseline arm refers to nothing and its projection hash is right by construction: it can only
      have lost source bodies. */
  lemma BaselineLosesOnlySources(n: Names, blobs: W.Blobs, specs: seq<W.Spec>, projection: Projected, task: string, id: string, scope: string, a: Arm)
    requires Made(n, blobs, specs, [], projection, task, id, scope, a) && projection.canonical == projection.computed
    ensures |a.losses| <= 1 && forall l :: l in a.losses ==> l.reason == SOURCE_ENTRY.reason
  {
    RegistryLosses(n, task, MissingOf(n, blobs, specs, [], projection));
  }

  lemma SignatureSize(losses: seq<Loss>)
    ensures |Signature(losses)| == |losses|
    ensures |losses| == 1 ==> Signature(losses) == [MarkOf(losses[0])]
  {
    MarkLeIsTotal();
    SortSpec(Map(losses, MarkOf), MarkLe);
  }

  lemma MarkLeIsTotal()
    ensures TotalPreorder(MarkLe) && forall a, b :: MarkLe(a, b) && MarkLe(b, a) ==> a == b
  {
    TextLeIsTotalPreorder();
  }

  /** A comparable pair carries at most one task loss per arm: the same one, for lost source bodies. */
  lemma ComparableSharesOneLoss(a: Arm, b: Arm)
    requires |a.losses| <= 1 && (forall l :: l in a.losses ==> l.reason == SOURCE_ENTRY.reason) && OpportunityOf(a, b).comparable
    ensures |a.losses| == |b.losses| <= 1
    ensures forall l :: l in a.losses + b.losses ==> l.reason == SOURCE_ENTRY.reason
    ensures forall l, k :: l in a.losses && k in b.losses ==> MarkOf(l) == MarkOf(k)
  {
    SignatureSize(a.losses);
    SignatureSize(b.losses);
    if a.losses != [] {
      assert a.losses[0] in a.losses;
      assert Signature(b.losses)[0] == MarkOf(b.losses[0]);
    }
  }

  // ---- The opportunity, recomputed from packets ------------------------------------------------------------------

  function IsTask(l: Loss): bool { l.reason != ROUTINE }

  /** The auditor's signature: from a packet's declared losses. */
  function PacketSignature(p: Packet): seq<Mark> { Signature(Having(p.inventory.losses, IsTask, true)) }

  /** The auditor's eligible questions: in signature order, where the recorder sorts by question. */
  function QuestionsOf(signature: seq<Mark>): seq<string> { Map(signature, MarkQuestion) }

  /** The opportunity part of `audit_records`.  Two sorted lists are equal when the lists are
      permutations of each other. */
  predicate OpportunityReplays(o: Opportunity, packets: seq<Packet>) {
    && |o.signatures| == 2 && |o.eligible| == 2
    && o.comparable == (o.signatures[0] == o.signatures[1])
    && multiset(o.signatures) == multiset(Map(packets, PacketSignature))
    && o.eligible == if o.comparable then [QuestionsOf(o.signatures[0]), QuestionsOf(o.signatures[1])] else [[], []]
  }

  lemma SignatureIgnoresFlags(losses: seq<Loss>, comparable: bool)
    ensures Signature(Map(losses, Flagged(comparable))) == Signature(losses)
  {
    assert Map(Map(losses, Flagged(comparable)), MarkOf) == Map(losses, MarkOf);
  }

  /** A packet's task losses are its arm's. */
  lemma PacketSignatureIsArms(n: Names, a: Arm, comparable: bool, task: string)
    requires a.routine.reason == ROUTINE && forall l :: l in a.losses ==> l.reason != ROUTINE
    ensures PacketSignature(PacketOf(n, WithFlags(a, comparable), task)) == Signature(a.losses)
  {
    var losses := Map(a.losses, Flagged(comparable));
    var all := [a.routine] + losses;
    var sorted := Sort(all, LossLe);
    LossLeIsTotal();
    SortSpec(all, LossLe);
    HavingIgnoresOrder(sorted, all, IsTask, true);
    TaskLossesRemain(a.routine, losses);
    MapIgnoresOrder(Having(sorted, IsTask, true), losses, MarkOf);
    MarkLeIsTotal();
    SortIgnoresOrder(Map(Having(sorted, IsTask, true), MarkOf), Map(losses, MarkOf), MarkLe);
    SignatureIgnoresFlags(a.losses, comparable);
  }

  lemma LossLeIsTotal()
    ensures TotalPreorder(LossLe) && TotalPreorder(SourceLe)
  {
    TextLeIsTotalPreorder();
  }

  lemma {:induction false} TaskLossesRemain(routine: Loss, losses: seq<Loss>)
    requires routine.reason == ROUTINE && forall l :: l in losses ==> l.reason != ROUTINE
    ensures Having([routine] + losses, IsTask, true) == losses
  {
    var all := [routine] + losses;
    if losses == [] {
      assert all[..0] == [];
      assert all == [routine] && !IsTask(routine);
    } else {
      var n := |losses| - 1;
      assert all[..|all| - 1] == [routine] + losses[..n] && losses[n] in losses;
      TaskLossesRemain(routine, losses[..n]);
      assert losses == losses[..n] + [losses[n]];
    }
  }

  lemma QuestionsSortedAlike(losses: seq<Loss>)
    requires |losses| <= 1
    ensures Sort(Map(losses, QuestionOf), TextLe) == QuestionsOf(Signature(losses))
  {
    SignatureSize(losses);
  }

  lemma EligibleAgrees(a: Arm, b: Arm)
    requires |a.losses| <= 1 && (forall l :: l in a.losses ==> l.reason == SOURCE_ENTRY.reason)
    ensures var o := OpportunityOf(a, b);
            o.eligible == if o.comparable then [QuestionsOf(o.signatures[0]), QuestionsOf(o.signatures[1])] else [[], []]
  {
    if OpportunityOf(a, b).comparable {
      ComparableSharesOneLoss(a, b);
      QuestionsSortedAlike(a.losses);
      QuestionsSortedAlike(b.losses);
    }
  }

  /** The two packets of a pair, flags set. */
  function PacketPair(n: Names, a: Arm, b: Arm, task: string): (Packet, Packet) {
    var comparable := OpportunityOf(a, b).comparable;
    (PacketOf(n, WithFlags(a, comparable), task), PacketOf(n, WithFlags(b, comparable), task))
  }

  /** The recorder sorts eligible questions by question, the auditor by reason and question.  They agree
      because a comparable pair has at most one task loss per arm. */
  lemma OpportunityAgrees(n: Names, a: Arm, b: Arm, task: string, swapped: bool)
    requires |a.losses| <= 1 && (forall l :: l in a.losses ==> l.reason == SOURCE_ENTRY.reason)
    requires a.routine.reason == ROUTINE && b.routine.reason == ROUTINE && forall l :: l in b.losses ==> l.reason != ROUTINE
    ensures var pair := PacketPair(n, a, b, task);
            OpportunityReplays(OpportunityOf(a, b), if swapped then [pair.1, pair.0] else [pair.0, pair.1])
  {
    var o, pair := OpportunityOf(a, b), PacketPair(n, a, b, task);
    PacketSignatureIsArms(n, a, o.comparable, task);
    PacketSignatureIsArms(n, b, o.comparable, task);
    EligibleAgrees(a, b);
    SignaturesOfPair(pair.0, pair.1, o.signatures, swapped);
  }

  lemma SignaturesOfPair(p: Packet, q: Packet, signatures: seq<seq<Mark>>, swapped: bool)
    requires signatures == [PacketSignature(p), PacketSignature(q)]
    ensures multiset(signatures) == multiset(Map(if swapped then [q, p] else [p, q], PacketSignature))
  {
    if swapped {
      assert Map([q, p], PacketSignature) == [signatures[1], signatures[0]];
    } else {
      assert Map([p, q], PacketSignature) == signatures;
    }
  }
}
