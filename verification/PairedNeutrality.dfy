/** Blinding, for the run itself: the scores a run records do not depend on its two seeded bits. */
module PairedNeutrality {
  import opened Wrappers
  import opened Ordering
  import opened Grouping
  import opened PairedArms
  import opened PairedPackets
  import opened PairedScore
  import opened PairedBlinding
  import opened PairedRecords

  /** A reviewer whose reply depends only on the packet. */
  function ByPacket(env: Env, reply: Packet -> Reply): Reviewer {
    (p: Packet) => (reply(p), ReviewIn(env, reply(p), p).0, ReviewIn(env, reply(p), p).1)
  }

  /** The calls of a run answer by content: the reviewer by packet, the judge candidate by candidate. */
  ghost predicate ByContent(env: Env, unit: string, p: Prepared, call0: Call, call1: Call, judgeCall: Call, reply: Packet -> Reply, j: Judge) {
    && call0.reply == reply(First(p).packet) && call1.reply == reply(Second(p).packet)
    && NoAnswer(judgeCall.reply) == j.unavailable
    && var batch := BatchFor(env, p, SeatsOf(env, unit, p, call0, call1));
       ValueOf(JudgementIn(env, judgeCall.reply, batch)) == JudgementOn(j, batch)
  }

  lemma SlotScoresByPacket(env: Env, unit: string, o: Opportunity, s: Side, call: Call, reply: Packet -> Reply)
    requires call.reply == reply(s.packet)
    ensures MechanicalIn(env, unit, o, s, call) == MechanicalFor(env.h, env.norm, o, unit, ByPacket(env, reply), s)
    ensures SeatOf(env, unit, o, s, call) == SeatFor(env.h, env.norm, o, unit, ByPacket(env, reply), s)
  {}

  /** The primary rows a run records are the pair's rows under its two bits. */
  lemma RunScoresThePair(env: Env, unit: string, p: Prepared, call0: Call, call1: Call, judgeCall: Call, reply: Packet -> Reply, j: Judge)
    requires ByContent(env, unit, p, call0, call1, judgeCall, reply, j)
    ensures ScoredOf(env, unit, p, call0, call1, judgeCall).primary ==
            PairScores(env.h, env.norm, p.opportunity, unit, p.task, p.a, p.b, ByPacket(env, reply), j, p.swapped, env.judgeBit(p.task))
  {
    SlotScoresByPacket(env, unit, p.opportunity, First(p), call0, reply);
    SlotScoresByPacket(env, unit, p.opportunity, Second(p), call1, reply);
  }

  /** The rows with both bits clear. */
  function PlainScores(env: Env, unit: string, p: Prepared, reply: Packet -> Reply, j: Judge): seq<PrimaryScore> {
    PairScores(env.h, env.norm, p.opportunity, unit, p.task, p.a, p.b, ByPacket(env, reply), j, false, false)
  }

  lemma RunScoresPlainly(env: Env, unit: string, p: Prepared, call0: Call, call1: Call, judgeCall: Call, reply: Packet -> Reply, j: Judge)
    requires ScoreIdsApart(env.h) && p.a.arm != p.b.arm && ByContent(env, unit, p, call0, call1, judgeCall, reply, j)
    ensures Map(ScoredOf(env, unit, p, call0, call1, judgeCall).primary, Unbatched) == Map(PlainScores(env, unit, p, reply, j), Unbatched)
  {
    RunScoresThePair(env, unit, p, call0, call1, judgeCall, reply, j);
    BlindingIsScoreNeutral(env.h, env.norm, p.opportunity, unit, p.task, p.a, p.b, ByPacket(env, reply), j, p.swapped, env.judgeBit(p.task));
  }

  lemma DecodingIgnoresBit(env: Env, bit: string -> bool, r: Reply, p: Packet)
    ensures ReviewIn(env.(judgeBit := bit), r, p) == ReviewIn(env, r, p)
  {
    assert DecodeReview(env.(judgeBit := bit), r.raw, p) == DecodeReview(env, r.raw, p);
  }

  lemma PlainScoresIgnoreBits(env: Env, bit: string -> bool, unit: string, p: Prepared, swapped: bool, reply: Packet -> Reply, j: Judge)
    ensures PlainScores(env.(judgeBit := bit), unit, p.(swapped := swapped), reply, j) == PlainScores(env, unit, p, reply, j)
  {
    DecodingIgnoresBit(env, bit, reply(p.a.packet), p.a.packet);
    DecodingIgnoresBit(env, bit, reply(p.b.packet), p.b.packet);
    ReviewersAgree(env.h, env.norm, p.opportunity, unit, p.task, p.a, p.b, ByPacket(env, reply), ByPacket(env.(judgeBit := bit), reply), j);
  }

  /** Two runs of one pair that differ in their slot bit and their permutation bit record the same primary
      rows, but for the batch id in them. */
  lemma SeedsDoNotMoveScores(env: Env, bit: string -> bool, unit: string, p: Prepared, swapped: bool, calls: (Call, Call, Call), others: (Call, Call, Call),
                             reply: Packet -> Reply, j: Judge)
    requires ScoreIdsApart(env.h) && p.a.arm != p.b.arm
    requires ByContent(env, unit, p, calls.0, calls.1, calls.2, reply, j)
    requires ByContent(env.(judgeBit := bit), unit, p.(swapped := swapped), others.0, others.1, others.2, reply, j)
    ensures Map(ScoredOf(env, unit, p, calls.0, calls.1, calls.2).primary, Unbatched) ==
            Map(ScoredOf(env.(judgeBit := bit), unit, p.(swapped := swapped), others.0, others.1, others.2).primary, Unbatched)
  {
    RunScoresPlainly(env, unit, p, calls.0, calls.1, calls.2, reply, j);
    RunScoresPlainly(env.(judgeBit := bit), unit, p.(swapped := swapped), others.0, others.1, others.2, reply, j);
    PlainScoresIgnoreBits(env, bit, unit, p, swapped, reply, j);
  }

  /** Reviewers that answer two packets alike score the pair alike. */
  lemma ReviewersAgree(h: ScoreNames, norm: Normalizer, o: Opportunity, unit: string, task: string, a: Side, b: Side, r: Reviewer, q: Reviewer, j: Judge)
    requires r(a.packet) == q(a.packet) && r(b.packet) == q(b.packet)
    ensures PairScores(h, norm, o, unit, task, a, b, r, j, false, false) == PairScores(h, norm, o, unit, task, a, b, q, j, false, false)
  {}
}
