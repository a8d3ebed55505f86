# Formal model of the m20 evaluator

A Dafny model of the deterministic core of the m20 changed-public-callee evaluator, with two smaller companions: the
report v3 contract checker and the set algebra of the m21 oracle. The evaluator is a producer and consumer system: every
artifact is built by one function and checked again by another, written separately. The model keeps both sides and
proves that they agree, and what an accepted artifact guarantees.

`dafny verify dfyconfig.toml` checks the whole project.

## Layout

| files | what they model |
|---|---|
| `PairedArms`, `PairedPackets`, `PairedSoundness` | the two arms of a unit, their packets, the comparison opportunity and the byte budget |
| `PairedScore`, `PairedBlinding`, `PairedNeutrality` | mechanical score, blind judging, primary score; clean abstentions and the neutrality of blinding |
| `PairedRecords`, `PairedAudit`, `PairedRun`, `PairedVerify`, `Artifacts` | the run, its create-only sink, the semantic replay and the verifier |
| `WindowAlgebra`, `WindowTheorems`, `WindowOrder`, `WindowBytes`, `SourcePayload` | the capped greedy union of line windows and the excerpts it measures |
| `BaselineSpecs`, `LineBreaks`, `TreeReader` | baseline windows from a diff, the lines they are counted in, and the git tree reader |
| `Stage0Contract`, `OccurrenceClosure`, `ContextProjection`, `FrozenObligation` | the Stage 0 contracts: builders, public validators, the frozen obligation |
| `Stage0Run`, `Stage0Gates`, `StageReduction` | the concurrent Stage 0 driver, its order-statistic gates, the stage reduction |
| `DepthScan` | the one-pass nesting scan over model output |
| `AuthorityTrace`, `AuthorityTiming` | the event-sequenced authority trace of a report v3, and when its decisions may be made |
| `Oracle` | rename mapping, stable keys, selection and evaluation lines |
| `Ordering`, `Grouping`, `Counting`, `Wrappers` | sorting, grouping, counting, option and result |

Loops, in-place updates and objects of the program are methods with invariants, and classes, each proved against a
function or a property; what the program promises is proved about that function. Text is a sequence of characters the
canonical encoder admits, compared code point by code point, which on that text is the order of its UTF-8 bytes.

## What a proof assumes

* SHA-256 identities, canonical JSON and its parser are function parameters. Distinctness of identities
  (`IdsApart`, `PayloadIdsApart`, `ScoreIdsApart`, `SummaryIdsApart`) and parsing that undoes encoding are hypotheses
  only of the lemmas that need them.
* `FromStage0` states what Stage 0 writes: a resolved repository root, canonical obligation bytes, and baseline spans from
  line 1 on (`BaselineSpecs.BaselineCoversTheChanges` proves the last).
* `FrozenIsAcceptable` is over production Rust paths and hexadecimal object ids.
* Diff opcodes are given: any list that walks both sides, in `splitlines` lines, from end to end.

## Where the code surprises

* Report rows are ordered and kept apart by (sequence, id), but indexed by id alone. An earlier row that reuses a later
  row's id is never checked (`ShadowedDecisionEscapes` and its like for findings, verifications and bindings); the
  authority theorem holds of the indexed rows, which are all the rows exactly when no id repeats.
* The occurrence builder does not bound the report's byte count; the public validator does. `BuilderMeetsValidator` gives
  the exact condition, `LongRevisionIsRefused` a family of inputs that fail it.
* A latent cardinality of state `known_zero` can never be frozen (`OnlyUnknownIsFrozen`).
* No run ever declares a projection-integrity loss: both projections carry the hash of their own body (`ArmsOfARun`).
* An accepted finding's decision need not be sequenced before the finding. `FindingBeforeItsDecision` is a report where it
  is not, `DecisionMayFollowItsFindings` makes one of any report whose claim has its evidence complete, and
  `AcceptDecisionMayMove` gives the exact condition under which a decision may be made at another time.
* Baseline windows are counted in `splitlines` lines, which break at more characters than LF, while excerpts count LF
  lines only. `BareReturnIsUnreadable` is a window that cannot be read; `WindowsReadInLfLines` says exactly when all can.

## Model

| member | source | states |
|---|---|---|
| `PairedVerify.EveryFinalizedRunVerifies` | benchmarks/m20-changed-public-callee-utility-v1/evaluator/pipeline.py:352-381 | Replay completeness to the byte: whatever the transport answers, every directory a run finalizes, sealed or model-ineligible, passes the verifier's ledger closure and the semantic replay |
| `PairedAudit.EveryRunReplays` | benchmarks/m20-changed-public-callee-utility-v1/evaluator/pipeline.py:406-471 | The records of every finalized run pass the audit, whose budget, opportunity, utility and primary are recomputed by different formulas from the recorder's |
| `PairedRun.Run` | benchmarks/m20-changed-public-callee-utility-v1/evaluator/pipeline.py:352-381 | The run, step by step through the create-only sink, fails exactly as its record function does and otherwise leaves exactly that function's records, ledger and seal on disk |
| `PairedRun.RunScored` | benchmarks/m20-changed-public-callee-utility-v1/evaluator/pipeline.py:370-381 | The two reviewer calls, mechanical scores, blind batch, judge call, utility and primary, written in order |
| `PairedRun.RunSlot` | benchmarks/m20-changed-public-callee-utility-v1/evaluator/pipeline.py:375-378 | One reviewer call: its envelopes checked, its reply scored, its artifacts written |
| `PairedRun.RunJudge` | benchmarks/m20-changed-public-callee-utility-v1/evaluator/pipeline.py:379-381 | The blind batch, the judge's call and the scores, checked and written |
| `PairedRun.PreparePair` | benchmarks/m20-changed-public-callee-utility-v1/evaluator/pipeline.py:357-361 | Accounting, both arms, the opportunity and both packets, or the first refusal |
| `PairedRun.WriteAll` | benchmarks/m20-changed-public-callee-utility-v1/evaluator/pipeline.py:367-381 | Every path written in one part of the run is new and the directory gains exactly those files |
| `PairedRun.PlacedKeys` | benchmarks/m20-changed-public-callee-utility-v1/evaluator/artifacts.py:6-16 | A directory holds exactly the paths written to it, with the bytes last written |
| `PairedVerify.VerifyRun` | benchmarks/m20-changed-public-callee-utility-v1/evaluator/artifacts.py:21-46 | Accepts exactly the directories whose bytes close and whose gathered records replay |
| `PairedVerify.RunReadsBack` | benchmarks/m20-changed-public-callee-utility-v1/evaluator/artifacts.py:43-45 | A run's directory gives back exactly the records it was written from |
| `PairedVerify.RunPathsFit` | benchmarks/m20-changed-public-callee-utility-v1/evaluator/pipeline.py:407-414 | The artifact set of a run is the one its terminal state calls for |
| `Artifacts.ArtifactSink.constructor` | benchmarks/m20-changed-public-callee-utility-v1/evaluator/artifacts.py:5 | A new sink is empty |
| `Artifacts.ArtifactSink.Write` | benchmarks/m20-changed-public-callee-utility-v1/evaluator/artifacts.py:6-15 | A path is written once: a second write is refused and changes nothing; the entry describes the bytes |
| `Artifacts.ArtifactSink.Finalize` | benchmarks/m20-changed-public-callee-utility-v1/evaluator/artifacts.py:17 | The ledger lists, in path order, what was written before it; the seal is over the ledger |
| `Artifacts.CloseBytes` | benchmarks/m20-changed-public-callee-utility-v1/evaluator/artifacts.py:23-42 | Finds a seal exactly when ledger, entries, paths and seal close over the files |
| `Artifacts.CheckEntries` | benchmarks/m20-changed-public-callee-utility-v1/evaluator/artifacts.py:37-39 | Every entry has its file's length and hash, or the check fails |
| `Artifacts.FinalizedCloses` | benchmarks/m20-changed-public-callee-utility-v1/evaluator/artifacts.py:17 | What a sink finalizes, the verifier's byte closure accepts |
| `Artifacts.VerifyRun` | benchmarks/m20-changed-public-callee-utility-v1/evaluator/artifacts.py:21-46 | The verifier accepts exactly the directories that close under some seal whose records replay |
| `PairedAudit.PreparedIsReady` | benchmarks/m20-changed-public-callee-utility-v1/evaluator/pipeline.py:357-361 | Every pair a run prepares has sound packets of the planner's byte counts, two arm ids, and an opportunity its packets reproduce |
| `PairedAudit.ArmsAlwaysStand` | benchmarks/m20-changed-public-callee-utility-v1/evaluator/pipeline.py:156-158 | The duplicate-source refusal is never reached: neither plan repeats a window |
| `PairedAudit.ArmsOfARun` | benchmarks/m20-changed-public-callee-utility-v1/evaluator/pipeline.py:168-172 | The baseline arm can only have lost source bodies, and no arm of a run ever declares a projection-integrity loss |
| `PairedAudit.CallReplays` | benchmarks/m20-changed-public-callee-utility-v1/evaluator/pipeline.py:45-66 | Envelopes the recorder accepted of a call are accepted again from its records |
| `PairedAudit.SlotReplays` | benchmarks/m20-changed-public-callee-utility-v1/evaluator/pipeline.py:434-446 | A slot's request, response, raw bytes, parsed output and mechanical score replay |
| `PairedAudit.BatchReplays` | benchmarks/m20-changed-public-callee-utility-v1/evaluator/pipeline.py:451-461 | Either order of the blind batch passes the candidate audit beside its unblinding entries |
| `PairedAudit.JudgeReplays` | benchmarks/m20-changed-public-callee-utility-v1/evaluator/pipeline.py:462-471 | The judge's call replays, and utility and primary recompute to what was recorded |
| `PairedAudit.CleanAbstentionOfARun` | benchmarks/m20-changed-public-callee-utility-v1/evaluator/pipeline.py:300-306 | In a run, an abstention without failure codes cites exactly the one task loss both arms declare, a lost source body |
| `PairedArms.BuildArm` | benchmarks/m20-changed-public-callee-utility-v1/evaluator/pipeline.py:153-173 | An arm: admitted sources, payloads, one loss per registry entry with obstructions, refused exactly when a window repeats |
| `PairedArms.TakeSpecs` | benchmarks/m20-changed-public-callee-utility-v1/evaluator/pipeline.py:154-163 | The spec loop finds a repeated window exactly when one is there, and gathers sources, payloads and obstructions in step |
| `PairedArms.DeclareLosses` | benchmarks/m20-changed-public-callee-utility-v1/evaluator/pipeline.py:166-172 | The registry loop: visible and hidden losses, one per key with obstructions |
| `PairedPackets.Compare` | benchmarks/m20-changed-public-callee-utility-v1/evaluator/pipeline.py:174-182 | Comparable exactly when the signatures agree, and every loss of both arms is flagged with that |
| `PairedPackets.SetFlags` | benchmarks/m20-changed-public-callee-utility-v1/evaluator/pipeline.py:178-179 | Every loss's eligibility is set in place and nothing else changes |
| `PairedPackets.ValidateClosure` | benchmarks/m20-changed-public-callee-utility-v1/evaluator/source_payload.py:45-84 | No failure exactly when payloads and sources describe and name each other |
| `PairedPackets.CheckPayloads` | benchmarks/m20-changed-public-callee-utility-v1/evaluator/source_payload.py:52-63 | No failure exactly when every payload's hash, length and id are those of its text |
| `PairedPackets.CheckSources` | benchmarks/m20-changed-public-callee-utility-v1/evaluator/source_payload.py:64-81 | No failure exactly when every source agrees with its payload and carries the id of its body |
| `PairedPackets.BaselineLosesOnlySources` | benchmarks/m20-changed-public-callee-utility-v1/evaluator/pipeline.py:358-360 | The baseline arm declares at most one task loss, for source bodies |
| `PairedPackets.ComparableSharesOneLoss` | benchmarks/m20-changed-public-callee-utility-v1/evaluator/pipeline.py:177 | A comparable pair carries at most one task loss per arm, the same one |
| `PairedPackets.OpportunityAgrees` | benchmarks/m20-changed-public-callee-utility-v1/evaluator/pipeline.py:447-450 | The recorder's opportunity, sorted by question, is the auditor's, sorted by reason and question, in either slot order |
| `PairedPackets.PacketSignatureIsArms` | benchmarks/m20-changed-public-callee-utility-v1/evaluator/pipeline.py:447-448 | The signature read from a packet's declared losses is its arm's |
| `PairedSoundness.PlanSpotsApart` | benchmarks/m20-changed-public-callee-utility-v1/evaluator/pipeline.py:156-158 | A plan never holds two windows of one span of one source |
| `PairedSoundness.PacketBytesAreAdmitted` | benchmarks/m20-changed-public-callee-utility-v1/evaluator/pipeline.py:347-351 | The byte count taken from a packet's sources is the count the planner admitted |
| `PairedSoundness.ArmPacketIsSound` | benchmarks/m20-changed-public-callee-utility-v1/evaluator/pipeline.py:382-392 | The packet of an arm over a plan passes the packet audit: ids in order and apart, payloads closed |
| `PairedScore.CheckObservations` | benchmarks/m20-changed-public-callee-utility-v1/evaluator/pipeline.py:271-279 | Foreign, out-of-range and missing-change codes, observation by observation |
| `PairedScore.CheckTexts` | benchmarks/m20-changed-public-callee-utility-v1/evaluator/pipeline.py:293-297 | Codes and traces of each text's normalization |
| `PairedScore.CheckClaims` | benchmarks/m20-changed-public-callee-utility-v1/evaluator/pipeline.py:289-297 | Codes and traces of each claim, in order |
| `PairedScore.ScoreMechanically` | benchmarks/m20-changed-public-callee-utility-v1/evaluator/pipeline.py:280-311 | The mechanical score of a reply: transport, observation, basis and text codes and the validity flags they decide |
| `PairedScore.ScoreUtility` | benchmarks/m20-changed-public-callee-utility-v1/evaluator/pipeline.py:318-324 | Per arm: valid exactly when judgeable and passed, otherwise the code for why not |
| `PairedScore.ScorePrimary` | benchmarks/m20-changed-public-callee-utility-v1/evaluator/pipeline.py:325-328 | One row per arm in arm order, completed exactly when every flag holds and no code remains |
| `PairedBlinding.CodesKeepEverything` | benchmarks/m20-changed-public-callee-utility-v1/evaluator/pipeline.py:267-270 | Ordering failure codes loses none and invents none |
| `PairedBlinding.CleanAbstentionCitesTheSharedLoss` | benchmarks/m20-changed-public-callee-utility-v1/evaluator/pipeline.py:300-306 | An abstention the mechanical score finds no fault with cites exactly the shared loss, with its reason |
| `PairedBlinding.BlindingIsScoreNeutral` | benchmarks/m20-changed-public-callee-utility-v1/evaluator/pipeline.py:313-328 | For a reviewer that sees the packet and a judge that scores content, neither seeded bit moves a primary row but for its batch id |
| `PairedNeutrality.RunScoresThePair` | benchmarks/m20-changed-public-callee-utility-v1/evaluator/pipeline.py:370-381 | The rows a run records are the pair's rows under its two bits |
| `PairedNeutrality.SeedsDoNotMoveScores` | benchmarks/m20-changed-public-callee-utility-v1/evaluator/pipeline.py:361 | Two runs of a pair that differ in slot bit and permutation bit record the same primary rows but for the batch id |
| `WindowAlgebra.UnionSpecs` | benchmarks/m20-changed-public-callee-utility-v1/evaluator/pipeline.py:208-227 | The merge loop computes the union plan, or refuses when one source has two blobs |
| `WindowAlgebra.GroupBySource` | benchmarks/m20-changed-public-callee-utility-v1/evaluator/pipeline.py:209-214 | Rows grouped by source in order; refused exactly at a blob conflict |
| `WindowAlgebra.MergeRows` | benchmarks/m20-changed-public-callee-utility-v1/evaluator/pipeline.py:217-226 | The in-place widening of the last row, row by row |
| `WindowTheorems.UnionRepresents` | benchmarks/m20-changed-public-callee-utility-v1/evaluator/pipeline.py:208-227 | Every input window is kept whole in one row of a role at least as strong; every line and role comes from an input; every row that is not an input span is within both limits; a plan exists exactly when no source has two blobs |
| `WindowTheorems.UnionCoversExactly` | benchmarks/m20-changed-public-callee-utility-v1/evaluator/pipeline.py:208-227 | A line is covered after the union exactly when an input covered it |
| `WindowTheorems.PlanIsValid` | benchmarks/m20-changed-public-callee-utility-v1/evaluator/pipeline.py:208-227 | Plan rows have proper spans and one blob per source |
| `WindowTheorems.UnionIsIdempotent` | benchmarks/m20-changed-public-callee-utility-v1/evaluator/pipeline.py:208-227 | Merging a plan again changes nothing |
| `WindowTheorems.MeasuredIsMonotone` | benchmarks/m20-changed-public-callee-utility-v1/evaluator/pipeline.py:240-243 | Bytes measured of a wider window are never fewer |
| `WindowOrder.UnionIgnoresOrder` | benchmarks/m20-changed-public-callee-utility-v1/evaluator/pipeline.py:215-227 | Any order of the specs gives the same plan, names included |
| `WindowBytes.AdmittedBytes` | benchmarks/m20-changed-public-callee-utility-v1/evaluator/pipeline.py:248-255 | The loop adds up the bytes of the windows that can be read |
| `WindowBytes.PacketAccount` | benchmarks/m20-changed-public-callee-utility-v1/evaluator/pipeline.py:261-266 | Both plans, both counts and the pair's eligibility |
| `WindowBytes.UnionKeepsBytes` | benchmarks/m20-changed-public-callee-utility-v1/evaluator/pipeline.py:239-266 | Adding windows to a plan never admits fewer bytes, overlapping survivors counted twice included |
| `WindowBytes.TreatmentDecidesEligibility` | benchmarks/m20-changed-public-callee-utility-v1/evaluator/pipeline.py:257-266 | The treatment's count is never below the core's, so it alone decides the pair's eligibility |
| `SourcePayload.Extract` | benchmarks/m20-changed-public-callee-utility-v1/evaluator/source_payload.py:6-27 | The scanning extractor returns exactly the slice of plain LF lines, or the right obstruction |
| `SourcePayload.ScanStarts` | benchmarks/m20-changed-public-callee-utility-v1/evaluator/source_payload.py:13-18 | The byte loop finds every line start and the line count |
| `SourcePayload.FindLineEnd` | benchmarks/m20-changed-public-callee-utility-v1/evaluator/source_payload.py:21-22 | The index just past the next LF, or the end of the file |
| `SourcePayload.AdjacentExcerptsConcatenate` | benchmarks/m20-changed-public-callee-utility-v1/evaluator/source_payload.py:20-25 | Adjacent excerpts concatenate to the excerpt of their union |
| `SourcePayload.AllLinesAreTheFile` | benchmarks/m20-changed-public-callee-utility-v1/evaluator/source_payload.py:20-25 | Lines 1 to n are the whole file |
| `SourcePayload.ExcerptDecodes` | benchmarks/m20-changed-public-callee-utility-v1/evaluator/source_payload.py:24 | An excerpt of valid UTF-8, by section 4 of RFC 3629, is valid UTF-8 |
| `SourcePayload.WiderExcerptIsLonger` | benchmarks/m20-changed-public-callee-utility-v1/evaluator/source_payload.py:20-25 | A wider span never has fewer bytes |
| `BaselineSpecs.Baseline` | benchmarks/m20-changed-public-callee-utility-v1/evaluator/repository.py:88-111 | Collects, sorts and merges in place the baseline windows of the changed files' bytes |
| `BaselineSpecs.CollectOps` | benchmarks/m20-changed-public-callee-utility-v1/evaluator/repository.py:100-104 | The opcode loop of one file, both sides |
| `BaselineSpecs.BaselineCoversTheChanges` | benchmarks/m20-changed-public-callee-utility-v1/evaluator/repository.py:88-111 | The windows have proper spans, stay apart in every file, and cover exactly the lines within three of a changed line, or a whole side that is not text |
| `BaselineSpecs.WindowsReadInLfLines` | benchmarks/m20-changed-public-callee-utility-v1/evaluator/repository.py:94-105 | Windows are cut in splitlines lines and read in LF lines: those of a text side can all be read exactly when no line asked for lies beyond its last LF line, and always when every break but LF and CR LF stands at the end of the file |
| `BaselineSpecs.BareReturnIsUnreadable` | benchmarks/m20-changed-public-callee-utility-v1/evaluator/repository.py:94-105 | A file added with a bare carriage return gets a window that cannot be read |
| `BaselineSpecs.MergeRows` | benchmarks/m20-changed-public-callee-utility-v1/evaluator/repository.py:106-111 | The in-place merge of sorted windows of one blob |
| `LineBreaks.CountsAgree` | benchmarks/m20-changed-public-callee-utility-v1/evaluator/repository.py:94 | splitlines never counts fewer lines than LF does; the counts agree exactly when every break but LF and CR LF stands at the very end, and then the lines themselves are the same |
| `LineBreaks.SplitLinesAreTheText` | benchmarks/m20-changed-public-callee-utility-v1/evaluator/repository.py:94 | The lines of splitlines concatenate to the text |
| `LineBreaks.BareReturnIsCountedTwice` | benchmarks/m20-changed-public-callee-utility-v1/evaluator/repository.py:94 | A carriage return between two letters makes two lines to one count and one to the other |
| `TreeReader.GitRepository.constructor` | benchmarks/m20-changed-public-callee-utility-v1/evaluator/repository.py:27 | A reader with an empty cache over an object store |
| `TreeReader.GitRepository.ReadObject` | benchmarks/m20-changed-public-callee-utility-v1/evaluator/repository.py:28-46 | An object of the expected kind, from the cache or the store, and the cache stays faithful |
| `TreeReader.GitRepository.VisitTree` | benchmarks/m20-changed-public-callee-utility-v1/evaluator/repository.py:58-76 | The recursive visit computes the reader's function of the tree |
| `TreeReader.GitRepository.VisitEdges` | benchmarks/m20-changed-public-callee-utility-v1/evaluator/repository.py:61-76 | The entry loop, index by index, computes the walk over the tree's bytes |
| `TreeReader.GitRepository.ReadTree` | benchmarks/m20-changed-public-callee-utility-v1/evaluator/repository.py:56-77 | The reader returns the tree's leaves and symlink count as specified |
| `TreeReader.ReaderInvertsEncoding` | benchmarks/m20-changed-public-callee-utility-v1/evaluator/repository.py:56-77 | At any nesting, the reader of an encoded tree returns exactly the non-symlink leaves by full path and counts the symlinks |
| `TreeReader.DuplicatePathUnreachable` | benchmarks/m20-changed-public-callee-utility-v1/evaluator/repository.py:72 | The duplicate-path refusal is never reached |
| `TreeReader.ParseInvertsEncode` | benchmarks/m20-changed-public-callee-utility-v1/evaluator/repository.py:61-76 | Bytes parse to entries exactly when they are those entries' encoding |
| `TreeReader.WalkConsumesEveryByte` | benchmarks/m20-changed-public-callee-utility-v1/evaluator/repository.py:61-76 | A walk that succeeds has consumed every byte as whole entries |
| `TreeReader.ReaderAcceptsStoredTrees` | benchmarks/m20-changed-public-callee-utility-v1/evaluator/repository.py:56-77 | The reader gets through exactly the trees that are, byte for byte and at every nesting, the encoding of a directory git can hold with everything under it stored, within the recursion limit |
| `DepthScan.Depth` | benchmarks/m20-changed-public-callee-utility-v1/evaluator/model_boundary.py:83-96 | The one-pass scanner computes the run of its state machine over the bytes |
| `DepthScan.ScanMeasuresNesting` | benchmarks/m20-changed-public-callee-utility-v1/evaluator/model_boundary.py:83-96 | Over every JSON text (RFC 8259) the scanner accepts exactly when structural nesting is at most 32 |
| `DepthScan.BracketsInStringsNeverCount` | benchmarks/m20-changed-public-callee-utility-v1/evaluator/model_boundary.py:86-90 | Whatever a string holds, escapes and brackets included, it leaves the depth as it was |
| `OccurrenceClosure.BuildClosure` | benchmarks/m20-changed-public-callee-utility-v1/evaluator/stage0_contract.py:174-275 | The builder's loops compute the closure function, refusals included |
| `OccurrenceClosure.AcceptFiles` | benchmarks/m20-changed-public-callee-utility-v1/evaluator/stage0_contract.py:190-197 | The accepted-file loop: paths and sources each at most once |
| `OccurrenceClosure.FillBuckets` | benchmarks/m20-changed-public-callee-utility-v1/evaluator/stage0_contract.py:208-221 | Occurrences grouped by call, counted and committed in call order |
| `OccurrenceClosure.Summarise` | benchmarks/m20-changed-public-callee-utility-v1/evaluator/stage0_contract.py:202-244 | The per-file loop: a summary per file, or the first refusal |
| `OccurrenceClosure.ValidatePublic` | benchmarks/m20-changed-public-callee-utility-v1/evaluator/stage0_contract.py:316-405 | Accepts exactly the closures whose counts, orders, identities, coverage and metrics agree |
| `OccurrenceClosure.CheckSummaries` | benchmarks/m20-changed-public-callee-utility-v1/evaluator/stage0_contract.py:335-371 | The summary loop: valid, one per file, ids in order, and their total |
| `OccurrenceClosure.CheckBuckets` | benchmarks/m20-changed-public-callee-utility-v1/evaluator/stage0_contract.py:353-367 | Legal, positive, in order without repeats, adding up to the file's count |
| `OccurrenceClosure.BuilderMeetsValidator` | benchmarks/m20-changed-public-callee-utility-v1/evaluator/stage0_contract.py:278-291 | For at most 20000 files, what the builder returns passes the public validator exactly when the report's canonical bytes number at most 2^53 - 1 |
| `OccurrenceClosure.LongRevisionIsRefused` | benchmarks/m20-changed-public-callee-utility-v1/evaluator/stage0_contract.py:253-275 | A revision longer than 2^53 - 1 characters is built into a closure the validator refuses |
| `OccurrenceClosure.CountsAreConserved` | benchmarks/m20-changed-public-callee-utility-v1/evaluator/stage0_contract.py:219-251 | Bucket counts add up to file counts, file counts to the report count, and that is the number of drafts |
| `OccurrenceClosure.BucketLimitUnreachable` | benchmarks/m20-changed-public-callee-utility-v1/evaluator/stage0_contract.py:211-212 | No file can have more than the eight legal call kinds |
| `OccurrenceClosure.NeverTooManyBuckets` | benchmarks/m20-changed-public-callee-utility-v1/evaluator/stage0_contract.py:211-212 | The builder never refuses for a bucket count |
| `OccurrenceClosure.DraftOrderDoesNotMatter` | benchmarks/m20-changed-public-callee-utility-v1/evaluator/stage0_contract.py:198-244 | Whenever one order of the drafts succeeds, every order returns the same closure |
| `ContextProjection.BuildProjection` | benchmarks/m20-changed-public-callee-utility-v1/evaluator/stage0_contract.py:458-574 | The builder's loops compute the projection function, refusals included |
| `ContextProjection.SummariseLosses` | benchmarks/m20-changed-public-callee-utility-v1/evaluator/stage0_contract.py:527-541 | The partition loop: lost anchors, reason indexes and commitments in step |
| `ContextProjection.StringAnchors` | benchmarks/m20-changed-public-callee-utility-v1/evaluator/stage0_contract.py:520-523 | Window anchors strung together in window order |
| `ContextProjection.BuilderMeetsValidator` | benchmarks/m20-changed-public-callee-utility-v1/evaluator/stage0_contract.py:577-608 | Whatever the builder returns passes the public validator |
| `ContextProjection.AnchorsAreDividedOnce` | benchmarks/m20-changed-public-callee-utility-v1/evaluator/stage0_contract.py:520-543 | Every anchor is in exactly one window or under exactly one loss reason, and the committed counts add up to the anchors |
| `FrozenObligation.GroupWindows` | benchmarks/m20-changed-public-callee-utility-v1/evaluator/stage0_production.py:145-155 | Each window's group is the hull of its subjects; refused exactly when a file is unknown or a window reads two files |
| `FrozenObligation.Freeze` | benchmarks/m20-changed-public-callee-utility-v1/evaluator/stage0_production.py:138-172 | Freezes the one obligation that can be assembled around a built projection, and refuses exactly when there is none |
| `FrozenObligation.FrozenIsAcceptable` | benchmarks/m20-changed-public-callee-utility-v1/evaluator/pipeline.py:106-145 | Every obligation frozen over production Rust paths passes the paired run's obligation check, and its callee window is the callee's requested range in the head tree |
| `FrozenObligation.CalleeIsFound` | benchmarks/m20-changed-public-callee-utility-v1/evaluator/pipeline.py:230-236 | The callee subject and its materialized source are found, on the head side |
| `FrozenObligation.OnlyUnknownIsFrozen` | benchmarks/m20-changed-public-callee-utility-v1/evaluator/stage0_production.py:168 | A latent cardinality known to be zero is always refused: only the state unknown is ever frozen |
| `Stage0Run.RunStage0` | benchmarks/m20-changed-public-callee-utility-v1/evaluator/stage0_driver.py:223-263 | For every interleaving and every legal width, a run that finishes has the outcome of one fixed function of the clusters, with the Stage 1 list a prefix of the Stage 2A list |
| `Stage0Run.Collect` | benchmarks/m20-changed-public-callee-utility-v1/evaluator/stage0_driver.py:235-242 | Whatever completes first, the collected builds are each cluster's own |
| `Stage0Run.RunTwice` | benchmarks/m20-changed-public-callee-utility-v1/evaluator/stage0_driver.py:223-263 | Two runs, at any widths and interleavings, that both finish agree |
| `Stage0Run.BuildsAreApart` | benchmarks/m20-changed-public-callee-utility-v1/evaluator/stage0_driver.py:217-220 | Builds of differently named clusters carry different ids |
| `Stage0Run.SelectionNests` | benchmarks/m20-changed-public-callee-utility-v1/evaluator/stage0_driver.py:246-258 | The Stage 1 list is a prefix of the Stage 2A list, and both list eligible obligations in hash order |
| `Stage0Run.WorkerCeiling` | benchmarks/m20-changed-public-callee-utility-v1/evaluator/stage0_driver.py:57-62 | Between 1 and 16 workers |
| `Stage0Gates.BoundedMeansMedianAndPercentile` | benchmarks/m20-changed-public-callee-utility-v1/evaluator/stage0_driver.py:165-170 | The size gate holds exactly when the rational median inequality and the 90th-percentile count hold |
| `Stage0Gates.MedianByCounting` | benchmarks/m20-changed-public-callee-utility-v1/evaluator/stage0_driver.py:155-158 | The median pair is the median by counting values on either side |
| `Stage0Gates.FanOutIsCount` | benchmarks/m20-changed-public-callee-utility-v1/evaluator/stage0_driver.py:171-180 | The fan-out gate holds exactly when enough clusters are within each bound |
| `Stage0Gates.FanOutIsFraction` | benchmarks/m20-changed-public-callee-utility-v1/evaluator/stage0_driver.py:171-180 | The fan-out gate as fractions of the clusters |
| `Stage0Gates.KthSmallestIsCount` | benchmarks/m20-changed-public-callee-utility-v1/evaluator/stage0_driver.py:171-173 | The k-th smallest value is at most t exactly when k values are |
| `Stage0Gates.SetGatesAreLossRates` | benchmarks/m20-changed-public-callee-utility-v1/evaluator/stage0_driver.py:176-181 | The set-difference gates are the loss rates of nested id sets |
| `StageReduction.RunUnits` | benchmarks/m20-changed-public-callee-utility-v1/evaluator/stage_driver.py:676-687 | The unit loop: a cell per unit in order and the calls counted, or the first unit that stops it |
| `StageReduction.ReadCell` | benchmarks/m20-changed-public-callee-utility-v1/evaluator/stage_driver.py:577-617 | The cell of a sealed run: completed arms as bits, integrity over both slots and the judge, and which completed arm claimed an issue; refused exactly when the scored arms are not the pair's |
| `StageReduction.ReadPositives` | benchmarks/m20-changed-public-callee-utility-v1/evaluator/stage_driver.py:592-604 | The slot loop: the last parsed slot of an arm decides whether an issue was claimed for it |
| `StageReduction.CellsAreBinary` | benchmarks/m20-changed-public-callee-utility-v1/evaluator/stage_driver.py:586 | Whatever the runs were, the cells read from them are binary |
| `StageReduction.RunRectangle` | benchmarks/m20-changed-public-callee-utility-v1/evaluator/stage_driver.py:710-716 | A rectangle exists only if every unit's run was sealed |
| `StageReduction.RunStage1` | benchmarks/m20-changed-public-callee-utility-v1/evaluator/stage_driver.py:690-716 | A Stage 1 result is the reduction of ten cells read from sealed runs, and its tables add up |
| `StageReduction.RunStage2a` | benchmarks/m20-changed-public-callee-utility-v1/evaluator/stage_driver.py:759-788 | A Stage 2A result is the reduction of the earlier cells and thirty read from sealed runs, and its tables add up |
| `StageReduction.TablesPartition` | benchmarks/m20-changed-public-callee-utility-v1/evaluator/stage_driver.py:643-649 | The four cells partition n, overall and per repository, and repository cells add up to the totals |
| `StageReduction.LeaveOneOutIsRecomputation` | benchmarks/m20-changed-public-callee-utility-v1/evaluator/stage_driver.py:649 | Each leave-one-out row is the recomputation on the remaining cells |
| `StageReduction.SensitivityIsShape` | benchmarks/m20-changed-public-callee-utility-v1/evaluator/stage_driver.py:657-659 | The sensitivity gate reads the leave-one-out rows as stated |
| `StageReduction.ReasonsNameFailedGates` | benchmarks/m20-changed-public-callee-utility-v1/evaluator/stage_driver.py:635-640 | A reason is listed exactly when its gate failed |
| `StageReduction.PassMeansEveryGate` | benchmarks/m20-changed-public-callee-utility-v1/evaluator/stage_driver.py:635-640 | A pass means every gate held |
| `StageReduction.Stage2aIsCumulative` | benchmarks/m20-changed-public-callee-utility-v1/evaluator/stage_driver.py:759-788 | The Stage 2A reduction over old and new cells contains the Stage 1 counts |
| `AuthorityTrace.Validate` | scripts/validate_bundle.py:903-1276 | The checker's loops accept exactly the reports the contract describes |
| `AuthorityTrace.CheckChains` | scripts/validate_bundle.py:1105-1151 | Grouping, sorting and chaining accept exactly when each finding supersedes its immediate predecessor on its claim |
| `AuthorityTrace.CheckChain` | scripts/validate_bundle.py:1145-1151 | The previous-pointer loop accepts exactly the chains |
| `AuthorityTrace.GroupFindings` | scripts/validate_bundle.py:1144 | Every finding lands once in its own claim's list |
| `AuthorityTrace.CheckAssessment` | scripts/validate_bundle.py:1154-1210 | Accepts exactly the assessments whose trace, pointers, state and current finding are exact |
| `AuthorityTrace.CheckBook` | scripts/validate_bundle.py:1008-1210 | All row checks together accept exactly the exact books |
| `AuthorityTrace.AuthorityTheorem` | scripts/validate_bundle.py:1064-1276 | In every accepted report accepted, verified, evidence-supported and selected nest, and every accepted obligation has a claim with an accept decision on that claim citing exactly the claim, its reproducing bindings and evidence, and its passed verifications sequenced before it |
| `AuthorityTrace.AcceptedAreVerified` | scripts/validate_bundle.py:1275-1276 | The separate accepted-must-be-verified comparison can never be what refuses a report |
| `AuthorityTrace.FindingsFormOneChain` | scripts/validate_bundle.py:1144-1151 | A claim's findings form one supersession chain in increasing (sequence, id), and a current finding is its last element |
| `AuthorityTrace.EveryClaimHasItsChain` | scripts/validate_bundle.py:1144-1151 | That chain exists for every claim |
| `AuthorityTrace.AcceptedFindingIsFinal` | scripts/validate_bundle.py:1185-1210 | A current accepted finding comes after and cites every passed verification of its claim, and its decision's |
| `AuthorityTrace.TraceGrows` | scripts/validate_bundle.py:1020-1060 | A claim's trace only grows with its horizon |
| `AuthorityTrace.CanonicalIsStrictlyIncreasing` | scripts/validate_bundle.py:214-217 | The order check holds exactly of strictly increasing keys |
| `AuthorityTrace.IndexHoldsTheLast` | scripts/validate_bundle.py:914-921 | Under an id that repeats, the index holds the last row |
| `AuthorityTrace.IndexCoversRowsIffIdsDistinct` | scripts/validate_bundle.py:914-921 | The index covers every row exactly when no id repeats |
| `AuthorityTrace.ShadowedDecisionEscapes` | scripts/validate_bundle.py:897-921 | An earlier decision that reuses a later one's id is accepted whatever it says: the order check is on (sequence, id) |
| `AuthorityTrace.ShadowedFindingEscapes` | scripts/validate_bundle.py:897-917 | The same of findings |
| `AuthorityTrace.ShadowedVerificationEscapes` | scripts/validate_bundle.py:897-915 | The same of verifications |
| `AuthorityTrace.ShadowedBindingEscapes` | scripts/validate_bundle.py:897-914 | The same of bindings |
| `AuthorityTiming.AcceptDecisionMayMove` | scripts/validate_bundle.py:1064-1104 | An accept decision of an accepted report may be re-timed, keeping it accepted, whenever its row is in order there and its claim's reproducing bindings and passed verifications are the same there; and when ids tell kinds of row apart, only then. The place of the findings that name it plays no part |
| `AuthorityTiming.RejectDecisionMayMove` | scripts/validate_bundle.py:1101-1104 | A rejection or an exception of an accepted report may be made at exactly the times its row is in order |
| `AuthorityTiming.DecisionMayFollowItsFindings` | scripts/validate_bundle.py:1124-1144 | Once a claim has all its reproducing bindings and passed verifications, its accept decision can be put off past every other event: the report stays accepted, and every finding that names the decision is older than it |
| `AuthorityTiming.OneClaimAccepted` | scripts/validate_bundle.py:1064-1276 | A one-claim report is accepted exactly when finding and decision both come after the verification, in either order |
| `AuthorityTiming.FindingBeforeItsDecision` | scripts/validate_bundle.py:1124-1144 | An accepted report with an accepted obligation whose finding, at 6, is older than the decision it names, at 7 |
| `Oracle.RenamePaths` | benchmarks/m21-context-construction-v1/evaluator/oracle.py:233-242 | A mapping exactly when old and new paths pair off one to one, and then it is that pairing, injective |
| `Oracle.StableIndex` | benchmarks/m21-context-construction-v1/evaluator/oracle.py:245-260 | An index exactly when no two definitions share a stable key |
| `Oracle.TargetToBase` | benchmarks/m21-context-construction-v1/evaluator/oracle.py:330-334 | Target and base symbols are mapped exactly when their definitions share a key |
| `Oracle.TargetToBaseIsInjective` | benchmarks/m21-context-construction-v1/evaluator/oracle.py:330-334 | The target-to-base map is injective, from target symbols to base symbols |
| `Oracle.IntersectionSharesLine` | benchmarks/m21-context-construction-v1/evaluator/oracle.py:102-105 | A counted hunk intersects a span exactly when they share a line |
| `Oracle.References` | benchmarks/m21-context-construction-v1/evaluator/oracle.py:346-382 | The changed-line loop: what each line adds, or a refusal exactly at an ambiguous line |
| `Oracle.Derive` | benchmarks/m21-context-construction-v1/evaluator/oracle.py:311-402 | The three symbol sets, or the refusal its conditions call for, each with its own code |
| `Oracle.SelectedAreBaseDefinitions` | benchmarks/m21-context-construction-v1/evaluator/oracle.py:319-384 | Every selected symbol is a base definition |
| `Oracle.Coalesce` | benchmarks/m21-context-construction-v1/evaluator/oracle.py:263-274 | The in-place merge of sorted declaration ranges |
| `Oracle.EvaluationLinesEnumerate` | benchmarks/m21-context-construction-v1/evaluator/oracle.py:402-407 | The evaluation lines are the strictly increasing enumeration of exactly the selected declarations' lines |

## Left out

- Git, cargo and product subprocesses, the filesystem, clones, temporary directories, timeouts and clocks: foreign calls.
- SHA-256, HMAC, base64 and the canonical JSON text itself: functions, with the properties named above.
- `freeze.py`, `semantic_acceptance.py`, `spec_contract.py`, the production freeze gate and custodian anchors: pinned hashes and scans.
- Reading and matching the stage manifest (`_stage`), the runtime and execution-identity gates: the run starts from an authenticated launch.
- `_lens` and text normalization: a predicate and a function of the packet, because NFKC and case folding are library tables.
- Closed-object, constant-field and JSON-type checks: the datatypes carry exactly the fields, so these refusals have no model.
- The registration source closure of the report checker, and its Markdown, TOML, float and schema checks.
- The m7 to m18 scripts, `request_shaper.py`, `cli.py`, `product.py`, `harness.py`, m21 packet, scoring and selector: input and output or fixed data.
- PairedRun.Run: a run that fails after its sink has opened leaves some files unfinalized; which ones is not stated.
- PairedVerify.VerifyRun: paths are those of a run, so links, file types and foreign paths, which are refused, are not represented.
- Artifacts.ArtifactSink.Write: the refusal of malformed relative paths is not represented, because every path of a run is one of a fixed list.
- PairedPackets.ValidateClosure: encoding, media type and the legal roles and sides are constants and datatypes here, so these checks have no model.
- BaselineSpecs.Baseline: the changed production Rust paths and the diff between two line lists are given.
- StageReduction.RunStage1: the wall-clock envelope and the authentication of inputs; a run that does not verify is an error of the unit's run.
- StageReduction.RunStage2a: as for Stage 1; the predecessor is a result taken as verified.
- AuthorityTrace.Validate: the registration source closure, byte limits and schema discriminators.
- AuthorityTrace.CheckBook: that evidence and verification rows cite known registrations is part of `TracesClosed`, as one equation of sets.
- TreeReader.WalkConsumesEveryByte: states one tree object; `ReaderAcceptsStoredTrees` states every nested one.
- Stage0Run.RunStage0: the payload hash inside a build is not recomputed, and a cluster that raises is one failure without its diagnostic.
- TreeReader.GitRepository.VisitTree: the interpreter's recursion limit is the fuel parameter, and running out of it is a refusal.
- Stage0Gates.BoundedMeansMedianAndPercentile: the ceilings of 0.90 and 0.95 of the count are taken in exact arithmetic, where the code multiplies floats.
- OccurrenceClosure.DraftOrderDoesNotMatter: among several faulty drafts, which refusal comes first does depend on their order.
- ContextProjection.BuildProjection: the context policy constants compared on both sides are not represented.
- Oracle.Derive: line lexing, product runs and fact closure before the set algebra are given as inputs.
