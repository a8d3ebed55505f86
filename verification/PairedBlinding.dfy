/** What the scores of a pair guarantee: a clean abstention cites the one shared loss, and blinding
    does not move a score. */
module PairedBlinding {
  import opened Wrappers
  import opened Ordering
  import opened Grouping
  import opened PairedArms
  import opened PairedPackets
  import opened PairedScore

  // ---- Codes ----------------------------------------------------------------------------------------------------

  lemma {:induction false} SelectMembers(order: seq<Code>, codes: seq<Code>)
    ensures forall c :: c in Select(order, codes) <==> c in order && c in codes
  {
    if order != [] {
      SelectMembers(order[1..], codes);
      assert order == [order[0]] + order[1..];
    }
  }

  lemma EveryCodeIsOrdered(c: Code)
    ensures c in CODE_ORDER
  {}

  /** No code is lost and none is invented. */
  lemma CodesKeepEverything(codes: seq<Code>)
    ensures forall c :: c in Codes(codes) <==> c in codes
    ensures Codes(codes) == [] <==> codes == []
  {
    SelectMembers(CODE_ORDER, codes);
    forall c ensures c in Codes(codes) <==> c in codes { EveryCodeIsOrdered(c); }
    if codes != [] { assert codes[0] in codes; }
    if Codes(codes) != [] { assert Codes(codes)[0] in Codes(codes); }
  }

  // ---- Clean abstentions ----------------------------------------------------------------------------------------

  lemma {:induction false} LossByIdFinds(losses: seq<Loss>, id: string)
    ensures LossById(losses, id).Some? ==> LossById(losses, id).value in losses && LossById(losses, id).value.id == id
  {
    if losses != [] { LossByIdFinds(losses[..|losses| - 1], id); }
  }

  /** A basis that earns no code: every id names an eligible task loss of the packet, of the reason given. */
  lemma CleanBasis(n: Names, x: Arm, comparable: bool, task: string, reason: string, basis: seq<string>, b: string)
    requires b in basis && BasisCodes(PacketOf(n, WithFlags(x, comparable), task), comparable, reason, basis) == []
    requires x.routine.reason == ROUTINE
    ensures comparable && Cites(x, b, reason)
  {
    var losses := PacketOf(n, WithFlags(x, comparable), task).inventory.losses;
    LossByIdFinds(losses, b);
    var cited := LossById(losses, b).value;
    LossLeIsTotal();
    SortMembers([x.routine] + Map(x.losses, Flagged(comparable)), LossLe);
    assert cited in [x.routine] + Map(x.losses, Flagged(comparable));
    MapMembers(x.losses, Flagged(comparable));
    assert cited in Map(x.losses, Flagged(comparable));
    var l :| l in x.losses && Flagged(comparable)(l) == cited;
  }

  /** Arms as a run makes them: the baseline can only have lost source bodies. */
  ghost predicate RunArms(a: Arm, b: Arm) {
    && |a.losses| <= 1 && (forall l :: l in a.losses ==> l.reason == SOURCE_ENTRY.reason)
    && a.routine.reason == ROUTINE && b.routine.reason == ROUTINE && forall l :: l in b.losses ==> l.reason != ROUTINE
  }

  /** An abstention the mechanical score finds no fault with cites exactly the one task loss the two
      arms share. */
  lemma CleanAbstentionCitesTheSharedLoss(h: ScoreNames, norm: Normalizer, n: Names, a: Arm, b: Arm, x: Arm, task: string, reply: Reply,
                                          decoded: Decoded<Review>, decodeCodes: seq<Code>, unit: string, view: string)
    requires RunArms(a, b) && (x == a || x == b)
    requires decoded.value.disposition.Abstention? && DispositionValid(decoded.value.disposition)
    requires var o := OpportunityOf(a, b);
             MechanicalOf(h, norm, PacketOf(n, WithFlags(x, o.comparable), task), x.id, o, reply, Some(decoded), decodeCodes, unit, view).codes == []
    ensures |a.losses| == 1 && |b.losses| == 1 && MarkOf(a.losses[0]) == MarkOf(b.losses[0])
    ensures decoded.value.disposition.basis == [x.losses[0].id]
    ensures decoded.value.disposition.reason == x.losses[0].reason == SOURCE_ENTRY.reason
  {
    var o := OpportunityOf(a, b);
    var p := PacketOf(n, WithFlags(x, o.comparable), task);
    var d := decoded.value.disposition;
    NoCodesNoBasisCodes(norm, p, o.comparable, reply, decoded, decodeCodes);
    forall id | id in d.basis ensures o.comparable && Cites(x, id, d.reason) {
      CleanBasis(n, x, o.comparable, task, d.reason, d.basis, id);
    }
    assert d.basis[0] in d.basis;
    OnlyTheSharedLoss(a, b, x, d.reason, d.basis);
  }

  ghost predicate Cites(x: Arm, id: string, reason: string) { exists l :: l in x.losses && l.id == id && l.reason == reason }

  lemma OnlyTheSharedLoss(a: Arm, b: Arm, x: Arm, reason: string, basis: seq<string>)
    requires RunArms(a, b) && (x == a || x == b) && OpportunityOf(a, b).comparable
    requires basis != [] && Distinct(basis) && forall id :: id in basis ==> Cites(x, id, reason)
    ensures |a.losses| == 1 && |b.losses| == 1 && MarkOf(a.losses[0]) == MarkOf(b.losses[0])
    ensures basis == [x.losses[0].id] && reason == x.losses[0].reason == SOURCE_ENTRY.reason
  {
    ComparableSharesOneLoss(a, b);
    assert basis[0] in basis && Cites(x, basis[0], reason);
    assert x.losses != [];
    assert x.losses == [x.losses[0]];
    assert x.losses[0] in a.losses + b.losses && a.losses[0] in a.losses && b.losses[0] in b.losses;
    OneIdOnce(basis, x.losses[0].id);
  }

  lemma OneIdOnce(ids: seq<string>, id: string)
    requires Distinct(ids) && ids != [] && forall x :: x in ids ==> x == id
    ensures ids == [id]
  {
    CardinalityOfDistinct(ids);
    assert ids[0] in ids;
    assert (set x | x in ids) == {id};
  }

  lemma NoCodesNoBasisCodes(norm: Normalizer, p: Packet, comparable: bool, reply: Reply, decoded: Decoded<Review>, decodeCodes: seq<Code>)
    requires Codes(AllCodes(norm, p, comparable, reply, Some(decoded), decodeCodes)) == [] && decoded.value.disposition.Abstention?
    ensures BasisCodes(p, comparable, decoded.value.disposition.reason, decoded.value.disposition.basis) == []
  {
    CodesKeepEverything(AllCodes(norm, p, comparable, reply, Some(decoded), decodeCodes));
  }

  // ---- Blinding --------------------------------------------------------------------------------------------------

  /** One arm as it is put to the reviewer. */
  datatype Side = Side(arm: string, packet: Packet, view: View)

  /** A reviewer that sees the packet and nothing else, with the decoder behind it. */
  type Reviewer = Packet -> (Reply, Option<Decoded<Review>>, seq<Code>)

  /** Whether the judge answered, and how it scores a candidate by its content. */
  datatype Judge = Judge(unavailable: bool, decoded: bool, score: Candidate -> Score)

  function MechanicalFor(h: ScoreNames, norm: Normalizer, o: Opportunity, unit: string, reviewer: Reviewer, s: Side): Mechanical {
    var (reply, decoded, codes) := reviewer(s.packet);
    MechanicalOf(h, norm, s.packet, s.arm, o, reply, decoded, codes, unit, s.view.sha)
  }

  function SeatFor(h: ScoreNames, norm: Normalizer, o: Opportunity, unit: string, reviewer: Reviewer, s: Side): Seat {
    Seat(CandidateOf(h, s.packet, s.view, MechanicalFor(h, norm, o, unit, reviewer, s), reviewer(s.packet).1), s.arm)
  }

  function JudgementOn(j: Judge, b: Batch): Option<Judgement> {
    if j.decoded then Some(Judgement(b.id, Map(b.candidates, j.score))) else None
  }

  function UtilityFor(h: ScoreNames, task: string, seats: seq<Seat>, j: Judge): Utility {
    var batch := BatchOf(h, task, Map(seats, CandidateIn));
    UtilityOf(batch, Reverse(batch.id, Map(seats, EntryOf)), JudgementOn(j, batch), j.unavailable)
  }

  /** The primary rows of a pair: the slot bit orders the reviewer calls, the permutation bit the batch. */
  function PairScores(h: ScoreNames, norm: Normalizer, o: Opportunity, unit: string, task: string, a: Side, b: Side, reviewer: Reviewer, j: Judge,
                      swapped: bool, reversed: bool): seq<PrimaryScore> {
    var (first, second) := if swapped then (b, a) else (a, b);
    var mechanicals := [MechanicalFor(h, norm, o, unit, reviewer, first), MechanicalFor(h, norm, o, unit, reviewer, second)];
    var seats := Seated(SeatFor(h, norm, o, unit, reviewer, a), SeatFor(h, norm, o, unit, reviewer, b), reversed);
    PrimaryOf(h, mechanicals, UtilityFor(h, task, seats, j))
  }

  /** Mechanical scores and candidates have their own ids. */
  ghost predicate ScoreIdsApart(h: ScoreNames) {
    (forall x, y :: h.mechanical(x) == h.mechanical(y) ==> x == y) && (forall x, y :: h.candidate(x) == h.candidate(y) ==> x == y)
  }

  lemma SeatIdsApart(h: ScoreNames, norm: Normalizer, o: Opportunity, unit: string, reviewer: Reviewer, a: Side, b: Side)
    requires ScoreIdsApart(h) && a.arm != b.arm
    ensures SeatFor(h, norm, o, unit, reviewer, a).candidate.id != SeatFor(h, norm, o, unit, reviewer, b).candidate.id
  {
    assert MechanicalFor(h, norm, o, unit, reviewer, a).arm == a.arm && MechanicalFor(h, norm, o, unit, reviewer, b).arm == b.arm;
    assert h.mechanical(MechanicalFor(h, norm, o, unit, reviewer, a)) != h.mechanical(MechanicalFor(h, norm, o, unit, reviewer, b));
  }

  /** An arm's utility, whatever its seat. */
  function SeatScore(x: Seat, j: Judge): UtilityScore {
    var valid := j.decoded && Passes(x.candidate, j.score(x.candidate));
    UtilityScore(x.candidate.id, x.arm, valid,
                 if valid then [] else [if j.unavailable then JudgeBatchUnavailable else if !j.decoded then JudgeBatchInvalid else UtilityThresholdFailed])
  }

  lemma UtilityOfSeats(h: ScoreNames, task: string, x: Seat, y: Seat, j: Judge)
    requires x.candidate.id != y.candidate.id
    ensures UtilityFor(h, task, [x, y], j).scores == [SeatScore(x, j), SeatScore(y, j)]
  {
    var seats := [x, y];
    var cs := Map(seats, CandidateIn);
    assert cs == [x.candidate, y.candidate] && cs[..1] == [x.candidate] && cs[..1][..0] == [];
    if j.decoded {
      var scores := Map(cs, j.score);
      assert PassedFrom(cs[..1], scores) == map[x.candidate.id := Passes(x.candidate, scores[0])];
      assert PassedFrom(cs, scores) == map[x.candidate.id := Passes(x.candidate, scores[0]), y.candidate.id := Passes(y.candidate, scores[1])];
    }
  }

  lemma ByArmOfTwo(s: UtilityScore, t: UtilityScore)
    requires s.arm != t.arm
    ensures ByArm([s, t], s.arm) == Some(s) && ByArm([s, t], t.arm) == Some(t)
  {
    assert [s, t][..1] == [s];
  }

  function Unbatched(p: PrimaryScore): PrimaryScore { p.(batch := "") }

  /** A primary row but for the batch id, from the arm's own seat. */
  function RowFor(h: ScoreNames, m: Mechanical, s: UtilityScore): PrimaryScore {
    var codes := Codes(m.codes + s.codes);
    PrimaryScore(m, h.mechanical(m), s.candidate, "", s.valid, AllValid(m) && s.valid && codes == [], codes)
  }

  lemma SeatedIsOneOrder(x: Seat, y: Seat, reversed: bool)
    ensures Seated(x, y, reversed) == [x, y] || Seated(x, y, reversed) == [y, x]
  {
    SortTwo(x, y, SeatLe);
  }

  /** Whatever the batch order, each arm's utility comes from its own seat. */
  lemma UtilityIgnoresSeat(h: ScoreNames, task: string, x: Seat, y: Seat, j: Judge, reversed: bool)
    requires x.candidate.id != y.candidate.id && x.arm != y.arm
    ensures var u := UtilityFor(h, task, Seated(x, y, reversed), j);
            ByArm(u.scores, x.arm) == Some(SeatScore(x, j)) && ByArm(u.scores, y.arm) == Some(SeatScore(y, j))
  {
    SeatedIsOneOrder(x, y, reversed);
    if Seated(x, y, reversed) == [x, y] {
      UtilityOfSeats(h, task, x, y, j);
      ByArmOfTwo(SeatScore(x, j), SeatScore(y, j));
    } else {
      UtilityOfSeats(h, task, y, x, j);
      ByArmOfTwo(SeatScore(y, j), SeatScore(x, j));
    }
  }

  lemma RowIgnoresSeat(h: ScoreNames, task: string, x: Seat, y: Seat, j: Judge, reversed: bool, m: Mechanical)
    requires x.candidate.id != y.candidate.id && x.arm != y.arm && (m.arm == x.arm || m.arm == y.arm)
    ensures Unbatched(PrimaryRow(h, m, UtilityFor(h, task, Seated(x, y, reversed), j))) == RowFor(h, m, SeatScore(if m.arm == x.arm then x else y, j))
  {
    UtilityIgnoresSeat(h, task, x, y, j, reversed);
  }

  lemma MechanicalsSortAlike(m: Mechanical, k: Mechanical)
    requires m.arm != k.arm
    ensures Sort([m, k], MechanicalLe) == Sort([k, m], MechanicalLe)
    ensures forall x :: x in Sort([m, k], MechanicalLe) <==> x == m || x == k
  {
    TextLeIsTotalPreorder();
    assert multiset([m, k]) == multiset([k, m]);
    SortIgnoresOrder([m, k], [k, m], MechanicalLe);
    SortMembers([m, k], MechanicalLe);
  }

  /** Blinding is score-neutral: for a reviewer that depends only on the packet and a judge that scores a
      candidate by its content, neither the slot bit nor the permutation bit moves any row, apart from the
      batch id it carries. */
  lemma BlindingIsScoreNeutral(h: ScoreNames, norm: Normalizer, o: Opportunity, unit: string, task: string, a: Side, b: Side, reviewer: Reviewer,
                               j: Judge, swapped: bool, reversed: bool)
    requires ScoreIdsApart(h) && a.arm != b.arm
    ensures Map(PairScores(h, norm, o, unit, task, a, b, reviewer, j, swapped, reversed), Unbatched) ==
            Map(PairScores(h, norm, o, unit, task, a, b, reviewer, j, false, false), Unbatched)
  {
    var m, k := MechanicalFor(h, norm, o, unit, reviewer, a), MechanicalFor(h, norm, o, unit, reviewer, b);
    var x, y := SeatFor(h, norm, o, unit, reviewer, a), SeatFor(h, norm, o, unit, reviewer, b);
    SeatIdsApart(h, norm, o, unit, reviewer, a, b);
    MechanicalsSortAlike(m, k);
    RowsIgnoreBits(h, task, x, y, j, m, k, swapped, reversed);
  }

  lemma RowsIgnoreBits(h: ScoreNames, task: string, x: Seat, y: Seat, j: Judge, m: Mechanical, k: Mechanical, swapped: bool, reversed: bool)
    requires x.candidate.id != y.candidate.id && x.arm != y.arm && m.arm == x.arm && k.arm == y.arm
    ensures Map(PrimaryOf(h, if swapped then [k, m] else [m, k], UtilityFor(h, task, Seated(x, y, reversed), j)), Unbatched) ==
            Map(PrimaryOf(h, [m, k], UtilityFor(h, task, Seated(x, y, false), j)), Unbatched)
  {
    MechanicalsSortAlike(m, k);
    var rows := Sort([m, k], MechanicalLe);
    var one := PrimaryOf(h, if swapped then [k, m] else [m, k], UtilityFor(h, task, Seated(x, y, reversed), j));
    var two := PrimaryOf(h, [m, k], UtilityFor(h, task, Seated(x, y, false), j));
    forall i | 0 <= i < |rows| ensures Unbatched(one[i]) == Unbatched(two[i]) {
      assert rows[i] in rows;
      RowIgnoresSeat(h, task, x, y, j, reversed, rows[i]);
      RowIgnoresSeat(h, task, x, y, j, false, rows[i]);
    }
  }
}
