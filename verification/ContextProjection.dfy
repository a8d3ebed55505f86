/** The context projection of one obligation (evaluator/stage0_contract.py): its builder and its
    public validator.  The policy constants both sides compare are not represented. */
module ContextProjection {
  import opened Wrappers
  import opened Ordering
  import opened Grouping
  import opened Stage0Contract

  const MAX_MATERIALIZED: int := 4096
  const MAX_WINDOWS: int := 8
  const MAX_REASONS: int := 15
  const MAX_UNKNOWNS: int := 64

  /** `LOSS_REASONS`, in precedence order. */
  const LOSS_REASONS: seq<string> := [
    "missing_location", "missing_source", "giant_line", "per_window_lines", "per_window_bytes", "per_file_window_cap",
    "total_window_cap", "total_excerpt_bytes", "overlap_unmergeable", "path_cap", "test_cap", "not_reached",
    "included_file_cap", "artifact_bytes_cap", "total_resolved_bytes_cap"]

  datatype Subject =
    | Admitted(role: string, endpoint: string, source: string, start: int, end: int, window: string)
    | Lost(role: string, endpoint: string, severity: string, reason: string, recovery: string, sources: seq<string>)

  datatype Materialized = Materialized(source: string, side: string, path: string, blob: string)
  datatype AnchorDraft = AnchorDraft(snapshot: string, source: string, owner: string, start: int, end: int)
  datatype Anchor = Anchor(id: string, draft: AnchorDraft)
  datatype ContextWindow = ContextWindow(id: string, source: string, start: int, end: int, role: string, requiredId: string, anchors: seq<string>)
  datatype Partition = Partition(reason: string, anchors: seq<string>)
  datatype Commitment = Commitment(count: int, digest: string)
  datatype LossSummary = LossSummary(reason: string, committed: Commitment)
  datatype Pair = Pair(caller: string, callee: string)

  /** A latent cardinality: its state, and what it carries beside it. */
  datatype Latent = Latent(state: string, detail: Option<LatentDetail>)
  datatype LatentDetail = LatentDetail(states: map<string, string>, qualifications: seq<string>)

  datatype Identity = Identity(projection: string, snapshot: string, request: string, obligations: seq<string>, relations: seq<string>, pairs: seq<Pair>)

  datatype Inputs = Inputs(identity: Identity, accepted: seq<string>, reached: seq<string>, subjects: seq<Subject>,
                           materialized: seq<Materialized>, anchors: seq<AnchorDraft>, windows: seq<ContextWindow>,
                           partitions: seq<Partition>, latent: Latent, unknowns: seq<string>, remainingLosses: seq<string>,
                           remainingSources: seq<string>)

  datatype Body = Body(identity: Identity, accepted: Commitment, reached: Commitment, materializedIds: Commitment, anchors: Commitment,
                       latent: Latent, subjects: seq<Subject>, materialized: seq<Materialized>, windows: seq<ContextWindow>,
                       losses: seq<LossSummary>, unknowns: seq<string>, remainingLosses: seq<string>, remainingSources: seq<string>,
                       requiredIds: seq<string>)

  datatype Projection = Projection(body: Body, canonical: string)

  /** A hash text is never empty. */
  type HashText = s: string | s != "" witness "-"

  datatype Hashes = Hashes(digest: seq<string> -> HashText, anchor: AnchorDraft -> HashText, body: Body -> HashText)

  datatype ContextError =
    | IdentityInvalid
    | AcceptedDenominatorInvalid
    | ReachedDenominatorInvalid
    | ReachedNotAccepted
    | SubjectOrderInvalid
    | SubjectInvalid
    | SubjectFileNotAccepted
    | MaterializedOverflow
    | MaterializedInvalid
    | AnchorInvalid
    | WindowInvalid
    | SubjectWindowMissing
    | PartitionInvalid
    | LossSummaryInvalid
    | LatentInvalid
    | UnknownsInvalid
    | UnknownOverflow
    | LossIdsInvalid
    | SourceIdsInvalid
    | RequiredIdsInvalid
    | IntegerOutOfRange
    | CommitmentInvalid
    | BoundInvalid
    | HashInvalid

  lemma OrdersAreTotal()
    ensures TotalPreorder(TextLe) && TotalPreorder(SourceLe) && TotalPreorder(AnchorLe) && TotalPreorder(WindowLe)
    ensures forall a, b :: TextLe(a, b) && TextLe(b, a) ==> a == b
  {
    TextLeIsTotalPreorder();
    WindowLeIsTotal();
  }

  predicate SourceLe(a: Materialized, b: Materialized) { TextLe(a.source, b.source) }
  predicate AnchorLe(a: Anchor, b: Anchor) { TextLe(a.id, b.id) }

  predicate WindowLe(a: ContextWindow, b: ContextWindow) {
    if a.source != b.source then TextLe(a.source, b.source)
    else if a.start != b.start then a.start < b.start
    else if a.end != b.end then a.end < b.end
    else TextLe(a.id, b.id)
  }

  lemma WindowLeIsTotal()
    ensures TotalPreorder(WindowLe)
  {
    TextLeIsTotalPreorder();
  }

  function Same(s: string): string { s }
  function SourceOf(m: Materialized): string { m.source }
  function AnchorIdOf(a: Anchor): string { a.id }
  function WindowIdOf(w: ContextWindow): string { w.id }
  function RequiredIdOf(w: ContextWindow): string { w.requiredId }

  /** `sorted(set(values))`. */
  function Uniques(values: seq<string>): seq<string> { Sort(Firsts(values, Same), TextLe) }

  function Commit(h: Hashes, ids: seq<string>): Commitment { Commitment(|ids|, h.digest(ids)) }

  // ---- Item checks -----------------------------------------------------------------------------------

  predicate Spanned(start: int, end: int) { IsCount(start) && start >= 1 && IsCount(end) && end >= start }

  predicate SubjectValid(s: Subject) {
    match s
    case Admitted(role, endpoint, source, start, end, window) =>
      role != "" && endpoint != "" && source != "" && window != "" && Spanned(start, end)
    case Lost(role, endpoint, severity, reason, recovery, sources) =>
      severity == "high" && reason != "" && recovery != "" && sources != [] && IdList(sources)
  }

  /** `_subject_outcomes`: the callee, then the caller. */
  function CheckSubjects(subjects: seq<Subject>): Option<ContextError> {
    if |subjects| != 2 || subjects[0].role != "callee" || subjects[1].role != "caller" then Some(SubjectOrderInvalid)
    else if forall s :: s in subjects ==> SubjectValid(s) then None else Some(SubjectInvalid)
  }

  /** `_latent`. */
  predicate LatentValid(l: Latent) {
    match l.detail
    case None => l.state == "known_zero"
    case Some(detail) =>
      l.state == "unknown" && |detail.states| > 0 && detail.qualifications != [] && IdList(detail.qualifications) &&
      forall k :: k in detail.states ==> k != "" && (detail.states[k] == "partial" || detail.states[k] == "unknown")
  }

  predicate AnchorValid(a: AnchorDraft) { a.snapshot != "" && a.source != "" && a.owner != "" && Spanned(a.start, a.end) }

  predicate MaterializedValid(m: Materialized) { m.source != "" && m.side != "" && m.path != "" && m.blob != "" }

  predicate WindowValid(w: ContextWindow, materializedIds: seq<string>) {
    w.id != "" && w.source != "" && w.role != "" && w.requiredId != "" && w.source in materializedIds &&
    Spanned(w.start, w.end) && IdList(w.anchors)
  }

  predicate PartitionValid(p: Partition) { p.reason in LOSS_REASONS && p.anchors != [] && IdList(p.anchors) }

  function IndexOf(reason: string, reasons: seq<string>): nat {
    if reasons == [] || reasons[0] == reason then 0 else 1 + IndexOf(reason, reasons[1..])
  }

  predicate IntLe(a: int, b: int) { a <= b }

  function AdmittedSources(subjects: seq<Subject>): seq<string> {
    if subjects == [] then [] else
    var n := |subjects| - 1;
    AdmittedSources(subjects[..n]) + (if subjects[n].Admitted? then [subjects[n].source] else [])
  }

  /** Anchors of a list of windows or partitions, end to end. */
  function WindowAnchors(windows: seq<ContextWindow>): seq<string> {
    if windows == [] then [] else WindowAnchors(windows[..|windows| - 1]) + windows[|windows| - 1].anchors
  }

  function LostAnchors(partitions: seq<Partition>): seq<string> {
    if partitions == [] then [] else LostAnchors(partitions[..|partitions| - 1]) + partitions[|partitions| - 1].anchors
  }

  function ReasonIndex(p: Partition): int { IndexOf(p.reason, LOSS_REASONS) }

  function Summarised(h: Hashes): Partition -> LossSummary { (p: Partition) => LossSummary(p.reason, Commit(h, p.anchors)) }

  predicate WindowPresent(s: Subject, windows: seq<ContextWindow>) {
    s.Admitted? ==> exists w :: w in windows && w.id == s.window && w.source == s.source
  }

  predicate PartitionsOrdered(partitions: seq<Partition>) {
    var indexes := Map(partitions, ReasonIndex);
    indexes == Sort(indexes, IntLe) && Distinct(indexes) && Distinct(LostAnchors(partitions))
  }

  predicate AdmittedOnce(admitted: seq<string>, anchors: seq<string>) {
    Distinct(admitted) && forall a :: a in admitted ==> a in anchors
  }

  /** The admitted and the lost anchors share nothing and are all the anchors there are. */
  predicate Covers(admitted: seq<string>, lost: seq<string>, anchors: seq<string>) {
    (forall a :: a in admitted ==> a !in lost) && (forall a :: a in admitted + lost ==> a in anchors) &&
    (forall a :: a in anchors ==> a in admitted || a in lost)
  }

  // ---- The builder -------------------------------------------------------------------------------------

  function MaterializedIds(i: Inputs): seq<string> { Uniques(AdmittedSources(i.subjects) + i.reached) }

  function Identified(h: Hashes): AnchorDraft -> Anchor { (a: AnchorDraft) => Anchor(h.anchor(a), a) }

  function AnchorRows(h: Hashes, i: Inputs): seq<Anchor> { Sort(Map(i.anchors, Identified(h)), AnchorLe) }

  function AnchorIds(h: Hashes, i: Inputs): seq<string> { Map(AnchorRows(h, i), AnchorIdOf) }

  function WindowRows(i: Inputs): seq<ContextWindow> { Sort(i.windows, WindowLe) }

  /** The checks up to the materialized sources. */
  function CheckFiles(i: Inputs): Option<ContextError> {
    if i.identity.projection == "" || i.identity.snapshot == "" || i.identity.request == "" then Some(IdentityInvalid)
    else if !IdList(i.accepted) then Some(AcceptedDenominatorInvalid)
    else if !IdList(i.reached) then Some(ReachedDenominatorInvalid)
    else if exists x :: x in i.reached && x !in i.accepted then Some(ReachedNotAccepted)
    else if CheckSubjects(i.subjects).Some? then CheckSubjects(i.subjects)
    else if exists x :: x in AdmittedSources(i.subjects) && x !in i.accepted then Some(SubjectFileNotAccepted)
    else if |MaterializedIds(i)| > MAX_MATERIALIZED then Some(MaterializedOverflow)
    else if exists m :: m in i.materialized && !MaterializedValid(m) then Some(MaterializedInvalid)
    else if Map(Sort(i.materialized, SourceLe), SourceOf) != MaterializedIds(i) then Some(MaterializedInvalid)
    else None
  }

  /** The checks on anchors and windows. */
  function CheckWindows(h: Hashes, i: Inputs): Option<ContextError> {
    if exists a :: a in i.anchors && !AnchorValid(a) then Some(AnchorInvalid)
    else if !Distinct(AnchorIds(h, i)) || exists a :: a in i.anchors && a.source !in i.reached then Some(AnchorInvalid)
    else if exists w :: w in i.windows && !WindowValid(w, MaterializedIds(i)) then Some(WindowInvalid)
    else if |i.windows| > MAX_WINDOWS || !Distinct(Map(WindowRows(i), WindowIdOf)) then Some(WindowInvalid)
    else if exists s :: s in i.subjects && !WindowPresent(s, WindowRows(i)) then Some(SubjectWindowMissing)
    else None
  }

  /** The checks on how the anchors are divided. */
  function CheckPartition(h: Hashes, i: Inputs): Option<ContextError> {
    if !AdmittedOnce(WindowAnchors(WindowRows(i)), AnchorIds(h, i)) then Some(PartitionInvalid)
    else if |i.partitions| > MAX_REASONS || exists p :: p in i.partitions && !PartitionValid(p) then Some(LossSummaryInvalid)
    else if !PartitionsOrdered(i.partitions) then Some(LossSummaryInvalid)
    else if !Covers(WindowAnchors(WindowRows(i)), LostAnchors(i.partitions), AnchorIds(h, i)) then Some(PartitionInvalid)
    else None
  }

  /** The remaining checks. */
  function CheckRest(i: Inputs): Option<ContextError> {
    if !LatentValid(i.latent) then Some(LatentInvalid)
    else if !IdList(i.unknowns) then Some(UnknownsInvalid)
    else if |i.unknowns| > MAX_UNKNOWNS then Some(UnknownOverflow)
    else if !IdList(i.identity.obligations) || i.identity.obligations == [] then Some(IdentityInvalid)
    else if !IdList(i.identity.relations) || i.identity.relations == [] then Some(IdentityInvalid)
    else if i.identity.pairs == [] then Some(IdentityInvalid)
    else if !IdList(i.remainingLosses) then Some(LossIdsInvalid)
    else if !IdList(i.remainingSources) then Some(SourceIdsInvalid)
    else None
  }

  function BodyOf(h: Hashes, i: Inputs): Body {
    Body(i.identity, Commit(h, i.accepted), Commit(h, i.reached), Commit(h, MaterializedIds(i)), Commit(h, AnchorIds(h, i)), i.latent,
         i.subjects, Sort(i.materialized, SourceLe), WindowRows(i), Map(i.partitions, Summarised(h)), i.unknowns, i.remainingLosses,
         i.remainingSources, Sort(Map(WindowRows(i), RequiredIdOf), TextLe))
  }

  /** Every count in the body is a canonical integer: otherwise its hash cannot be taken. */
  predicate Encodable(b: Body) {
    IsCount(b.accepted.count) && IsCount(b.reached.count) && IsCount(b.materializedIds.count) && IsCount(b.anchors.count) &&
    forall s :: s in b.losses ==> IsCount(s.committed.count)
  }

  function Refusal(h: Hashes, i: Inputs): Option<ContextError> {
    if CheckFiles(i).Some? then CheckFiles(i)
    else if CheckWindows(h, i).Some? then CheckWindows(h, i)
    else if CheckPartition(h, i).Some? then CheckPartition(h, i)
    else if CheckRest(i).Some? then CheckRest(i)
    else if !Distinct(BodyOf(h, i).requiredIds) then Some(RequiredIdsInvalid)
    else if !Encodable(BodyOf(h, i)) then Some(IntegerOutOfRange)
    else None
  }

  /** `build_context_projection_v3`. */
  function Build(h: Hashes, i: Inputs): Result<Projection, ContextError> {
    match Refusal(h, i)
    case Some(e) => Failure(e)
    case None => Success(Projection(BodyOf(h, i), h.body(BodyOf(h, i))))
  }

  /** The loop over admitted windows, and the anchors it strings together. */
  method AdmitWindows(materializedIds: seq<string>, windows: seq<ContextWindow>) returns (ok: bool, rows: seq<ContextWindow>)
    ensures ok <==> forall w :: w in windows ==> WindowValid(w, materializedIds)
    ensures ok ==> rows == Sort(windows, WindowLe)
  {
    rows := [];
    for k := 0 to |windows|
      invariant rows == windows[..k] && forall w :: w in windows[..k] ==> WindowValid(w, materializedIds)
    {
      assert windows[k] in windows;
      if !WindowValid(windows[k], materializedIds) { return false, []; }
      rows := rows + [windows[k]];
    }
    assert windows[..|windows|] == windows;
    return true, Sort(rows, WindowLe);
  }

  method StringAnchors(windows: seq<ContextWindow>) returns (anchors: seq<string>)
    ensures anchors == WindowAnchors(windows)
  {
    anchors := [];
    for k := 0 to |windows|
      invariant anchors == WindowAnchors(windows[..k])
    {
      assert windows[..k + 1][..k] == windows[..k];
      anchors := anchors + windows[k].anchors;
    }
    assert windows[..|windows|] == windows;
  }

  predicate EachPartition(partitions: seq<Partition>) { forall p :: p in partitions ==> PartitionValid(p) }

  /** What the loop has gathered from the partitions it is done with. */
  ghost predicate Gathered(h: Hashes, done: seq<Partition>, lost: seq<string>, indexes: seq<int>, summaries: seq<LossSummary>) {
    lost == LostAnchors(done) && indexes == Map(done, ReasonIndex) && summaries == Map(done, Summarised(h))
  }

  lemma GatherStep(h: Hashes, done: seq<Partition>, p: Partition, lost: seq<string>, indexes: seq<int>, summaries: seq<LossSummary>)
    requires Gathered(h, done, lost, indexes, summaries)
    ensures Gathered(h, done + [p], lost + p.anchors, indexes + [ReasonIndex(p)], summaries + [LossSummary(p.reason, Commit(h, p.anchors))])
  {
    assert (done + [p])[..|done|] == done;
  }

  lemma EachStep(done: seq<Partition>, p: Partition)
    ensures EachPartition(done + [p]) <==> EachPartition(done) && PartitionValid(p)
  {
    assert p in done + [p];
  }

  lemma OneInvalid(partitions: seq<Partition>, k: nat)
    requires k < |partitions| && !PartitionValid(partitions[k])
    ensures !EachPartition(partitions)
  {
    assert partitions[k] in partitions;
  }

  /** One partition: checked, then its anchors, reason and summary added. */
  method TakePartition(h: Hashes, ghost done: seq<Partition>, p: Partition, lost: seq<string>, indexes: seq<int>, summaries: seq<LossSummary>)
    returns (ok: bool, lost': seq<string>, indexes': seq<int>, summaries': seq<LossSummary>)
    requires EachPartition(done) && Gathered(h, done, lost, indexes, summaries)
    ensures ok <==> PartitionValid(p)
    ensures ok ==> EachPartition(done + [p]) && Gathered(h, done + [p], lost', indexes', summaries')
  {
    if !PartitionValid(p) { return false, [], [], []; }
    EachStep(done, p);
    GatherStep(h, done, p, lost, indexes, summaries);
    return true, lost + p.anchors, indexes + [ReasonIndex(p)], summaries + [LossSummary(p.reason, Commit(h, p.anchors))];
  }

  /** The loop over loss partitions: lost anchors, reason indexes and summaries. */
  method SummariseLosses(h: Hashes, partitions: seq<Partition>)
    returns (ok: bool, lost: seq<string>, indexes: seq<int>, summaries: seq<LossSummary>)
    ensures ok <==> EachPartition(partitions)
    ensures ok ==> Gathered(h, partitions, lost, indexes, summaries)
  {
    lost, indexes, summaries := [], [], [];
    ghost var done: seq<Partition> := [];
    for k := 0 to |partitions|
      invariant done == partitions[..k] && EachPartition(done) && Gathered(h, done, lost, indexes, summaries)
    {
      ok, lost, indexes, summaries := TakePartition(h, done, partitions[k], lost, indexes, summaries);
      if !ok {
        OneInvalid(partitions, k);
        return;
      }
      done := done + [partitions[k]];
    }
    assert partitions[..|partitions|] == partitions;
    ok := true;
  }

  /** The builder's refusals between the anchors and the loss summaries. */
  method DivideAnchors(h: Hashes, i: Inputs, rows: seq<ContextWindow>, anchorIds: seq<string>) returns (refusal: Option<ContextError>, summaries: seq<LossSummary>)
    requires rows == WindowRows(i) && anchorIds == AnchorIds(h, i)
    ensures refusal == CheckPartition(h, i)
    ensures refusal == None ==> summaries == Map(i.partitions, Summarised(h))
  {
    var admitted := StringAnchors(rows);
    if !AdmittedOnce(admitted, anchorIds) { return Some(PartitionInvalid), []; }
    if |i.partitions| > MAX_REASONS { return Some(LossSummaryInvalid), []; }
    var ok, lost, indexes, made := SummariseLosses(h, i.partitions);
    if !ok { return Some(LossSummaryInvalid), []; }
    if indexes != Sort(indexes, IntLe) || !Distinct(indexes) || !Distinct(lost) { return Some(LossSummaryInvalid), []; }
    if !Covers(admitted, lost, anchorIds) { return Some(PartitionInvalid), []; }
    return None, made;
  }

  /** The builder's refusals on anchors and windows. */
  method SeatWindows(h: Hashes, i: Inputs, anchorIds: seq<string>) returns (refusal: Option<ContextError>, rows: seq<ContextWindow>)
    requires anchorIds == AnchorIds(h, i)
    ensures refusal == CheckWindows(h, i)
    ensures refusal == None ==> rows == WindowRows(i)
  {
    if exists a :: a in i.anchors && !AnchorValid(a) { return Some(AnchorInvalid), []; }
    if !Distinct(anchorIds) || exists a :: a in i.anchors && a.source !in i.reached { return Some(AnchorInvalid), []; }
    var valid, made := AdmitWindows(MaterializedIds(i), i.windows);
    if !valid || |i.windows| > MAX_WINDOWS || !Distinct(Map(made, WindowIdOf)) { return Some(WindowInvalid), []; }
    if exists s :: s in i.subjects && !WindowPresent(s, made) { return Some(SubjectWindowMissing), []; }
    return None, made;
  }

  /** The builder. */
  method BuildProjection(h: Hashes, i: Inputs) returns (r: Result<Projection, ContextError>)
    ensures r == Build(h, i)
  {
    var refusal := CheckFiles(i);
    if refusal.Some? { return Failure(refusal.value); }
    var anchorIds := AnchorIds(h, i);
    var seated, rows := SeatWindows(h, i, anchorIds);
    if seated.Some? { return Failure(seated.value); }
    var divided, summaries := DivideAnchors(h, i, rows, anchorIds);
    if divided.Some? { return Failure(divided.value); }
    refusal := CheckRest(i);
    if refusal.Some? { return Failure(refusal.value); }
    var requiredIds := Sort(Map(rows, RequiredIdOf), TextLe);
    if !Distinct(requiredIds) { return Failure(RequiredIdsInvalid); }
    var body := Body(i.identity, Commit(h, i.accepted), Commit(h, i.reached), Commit(h, MaterializedIds(i)), Commit(h, anchorIds), i.latent,
                     i.subjects, Sort(i.materialized, SourceLe), rows, summaries, i.unknowns, i.remainingLosses, i.remainingSources, requiredIds);
    if !Encodable(body) { return Failure(IntegerOutOfRange); }
    return Success(Projection(body, h.body(body)));
  }

  // ---- The public validator ---------------------------------------------------------------------------------

  predicate CommitmentValid(c: Commitment) { IsCount(c.count) && c.digest != "" }

  /** `validate_context_projection_public`. */
  function Validate(h: Hashes, p: Projection): Result<Projection, ContextError> {
    var b := p.body;
    if !CommitmentValid(b.accepted) || !CommitmentValid(b.reached) || !CommitmentValid(b.materializedIds) || !CommitmentValid(b.anchors)
    then Failure(CommitmentInvalid)
    else if b.materializedIds.count > MAX_MATERIALIZED then Failure(MaterializedOverflow)
    else if CheckSubjects(b.subjects).Some? then Failure(CheckSubjects(b.subjects).value)
    else if !LatentValid(b.latent) then Failure(LatentInvalid)
    else if !IdList(b.unknowns) then Failure(UnknownsInvalid)
    else if !IdList(b.remainingLosses) then Failure(LossIdsInvalid)
    else if !IdList(b.remainingSources) then Failure(SourceIdsInvalid)
    else if !IdList(b.requiredIds) then Failure(RequiredIdsInvalid)
    else if |b.unknowns| > MAX_UNKNOWNS || |b.losses| > MAX_REASONS then Failure(BoundInvalid)
    else if exists s :: s in b.losses && (s.reason !in LOSS_REASONS || !CommitmentValid(s.committed)) then Failure(LossSummaryInvalid)
    else if p.canonical != h.body(b) then Failure(HashInvalid)
    else Success(p)
  }

  lemma SortedIsIdList(values: seq<string>)
    requires (forall v :: v in values ==> v != "") && Distinct(Sort(values, TextLe))
    ensures IdList(Sort(values, TextLe))
  {
    OrdersAreTotal();
    SortSpec(values, TextLe);
    SortMembers(values, TextLe);
    SortFixesSorted(Sort(values, TextLe), TextLe);
  }

  lemma RequiredIdsAreList(h: Hashes, i: Inputs)
    requires CheckWindows(h, i) == None && Distinct(BodyOf(h, i).requiredIds)
    ensures IdList(BodyOf(h, i).requiredIds)
  {
    var rows := WindowRows(i);
    OrdersAreTotal();
    SortMembers(i.windows, WindowLe);
    MapMembers(rows, RequiredIdOf);
    forall v | v in Map(rows, RequiredIdOf) ensures v != "" {
      var w :| w in rows && RequiredIdOf(w) == v;
      assert WindowValid(w, MaterializedIds(i));
    }
    SortedIsIdList(Map(rows, RequiredIdOf));
  }

  lemma LossesAreLegal(h: Hashes, i: Inputs)
    requires CheckPartition(h, i) == None
    ensures |BodyOf(h, i).losses| <= MAX_REASONS
    ensures forall s :: s in BodyOf(h, i).losses ==> s.reason in LOSS_REASONS && s.committed.digest != ""
  {
    var losses := Map(i.partitions, Summarised(h));
    MapMembers(i.partitions, Summarised(h));
    forall s | s in losses ensures s.reason in LOSS_REASONS && s.committed.digest != "" {
      var p :| p in i.partitions && Summarised(h)(p) == s;
      assert PartitionValid(p);
    }
  }

  /** Nothing refused the inputs. */
  lemma BuiltParts(h: Hashes, i: Inputs)
    requires Build(h, i).Success?
    ensures CheckFiles(i) == None && CheckWindows(h, i) == None && CheckPartition(h, i) == None && CheckRest(i) == None
    ensures Distinct(BodyOf(h, i).requiredIds) && Encodable(BodyOf(h, i))
    ensures Build(h, i).value == Projection(BodyOf(h, i), h.body(BodyOf(h, i)))
  {}

  lemma FilesPass(i: Inputs)
    requires CheckFiles(i) == None
    ensures |MaterializedIds(i)| <= MAX_MATERIALIZED && CheckSubjects(i.subjects) == None
    ensures Map(Sort(i.materialized, SourceLe), SourceOf) == MaterializedIds(i)
    ensures i.identity.projection != ""
  {}

  predicate RestValid(i: Inputs) {
    LatentValid(i.latent) && IdList(i.unknowns) && IdList(i.remainingLosses) && IdList(i.remainingSources) && |i.unknowns| <= MAX_UNKNOWNS &&
    IdList(i.identity.obligations) && i.identity.obligations != [] && IdList(i.identity.relations) && i.identity.relations != []
  }

  lemma RestPasses(i: Inputs)
    requires CheckRest(i) == None
    ensures RestValid(i)
  {}

  lemma CommitmentsPass(h: Hashes, i: Inputs)
    requires Encodable(BodyOf(h, i))
    ensures var b := BodyOf(h, i);
            CommitmentValid(b.accepted) && CommitmentValid(b.reached) && CommitmentValid(b.materializedIds) && CommitmentValid(b.anchors) &&
            b.materializedIds.count == |MaterializedIds(i)| && forall s :: s in b.losses ==> IsCount(s.committed.count)
  {}

  lemma PartsPass(h: Hashes, p: Projection, i: Inputs)
    requires var b := p.body;
             CommitmentValid(b.accepted) && CommitmentValid(b.reached) && CommitmentValid(b.materializedIds) && CommitmentValid(b.anchors)
    requires p.body.materializedIds.count <= MAX_MATERIALIZED && CheckSubjects(p.body.subjects) == None
    requires RestValid(i) && p.body.latent == i.latent && p.body.unknowns == i.unknowns
    requires p.body.remainingLosses == i.remainingLosses && p.body.remainingSources == i.remainingSources
    requires IdList(p.body.requiredIds) && |p.body.losses| <= MAX_REASONS
    requires forall s :: s in p.body.losses ==> s.reason in LOSS_REASONS && CommitmentValid(s.committed)
    requires p.canonical == h.body(p.body)
    ensures Validate(h, p) == Success(p)
  {}

  /** Whatever the builder returns passes the public validator. */
  lemma BuilderMeetsValidator(h: Hashes, i: Inputs)
    requires Build(h, i).Success?
    ensures Validate(h, Build(h, i).value) == Build(h, i)
  {
    BuiltParts(h, i);
    FilesPass(i);
    RestPasses(i);
    RequiredIdsAreList(h, i);
    LossesAreLegal(h, i);
    CommitmentsPass(h, i);
    PartsPass(h, Projection(BodyOf(h, i), h.body(BodyOf(h, i))), i);
  }

  // ---- The anchors are divided exactly once ------------------------------------------------------------------

  function LossCountOf(s: LossSummary): int { s.committed.count }
  function WindowCountOf(w: ContextWindow): int { |w.anchors| }

  lemma {:induction false} LostAnchorsSize(h: Hashes, partitions: seq<Partition>)
    ensures Sum(Map(Map(partitions, Summarised(h)), LossCountOf)) == |LostAnchors(partitions)|
  {
    if partitions != [] {
      var n := |partitions| - 1;
      LostAnchorsSize(h, partitions[..n]);
      var front := Map(Map(partitions[..n], Summarised(h)), LossCountOf);
      assert Map(Map(partitions, Summarised(h)), LossCountOf) == front + [|partitions[n].anchors|];
      SumSnoc(front, |partitions[n].anchors|);
    }
  }

  lemma {:induction false} WindowAnchorsSize(windows: seq<ContextWindow>)
    ensures Sum(Map(windows, WindowCountOf)) == |WindowAnchors(windows)|
  {
    if windows != [] {
      var n := |windows| - 1;
      WindowAnchorsSize(windows[..n]);
      assert Map(windows, WindowCountOf) == Map(windows[..n], WindowCountOf) + [|windows[n].anchors|];
      SumSnoc(Map(windows[..n], WindowCountOf), |windows[n].anchors|);
    }
  }

  lemma CoversOnce(admitted: seq<string>, lost: seq<string>, anchors: seq<string>)
    requires Distinct(admitted) && Distinct(lost) && Distinct(anchors) && Covers(admitted, lost, anchors)
    ensures multiset(admitted + lost) == multiset(anchors) && |admitted| + |lost| == |anchors|
  {
    var all := admitted + lost;
    forall i, j | 0 <= i < j < |all| ensures all[i] != all[j] {
      if i < |admitted| <= j { assert all[i] in admitted && all[j] in lost; }
    }
    SameMembersOnce(all, anchors);
    MultisetMembers(all, anchors);
  }

  /** Every anchor is either in exactly one window or under exactly one loss reason, once; and the
      committed counts of a published projection say so. */
  lemma AnchorsAreDividedOnce(h: Hashes, i: Inputs)
    requires Build(h, i).Success?
    ensures multiset(WindowAnchors(Build(h, i).value.body.windows) + LostAnchors(i.partitions)) == multiset(AnchorIds(h, i))
    ensures forall a :: a in i.anchors ==> multiset(WindowAnchors(Build(h, i).value.body.windows) + LostAnchors(i.partitions))[h.anchor(a)] == 1
    ensures var b := Build(h, i).value.body;
            Sum(Map(b.windows, WindowCountOf)) + Sum(Map(b.losses, LossCountOf)) == b.anchors.count == |i.anchors|
  {
    var admitted, lost := WindowAnchors(WindowRows(i)), LostAnchors(i.partitions);
    CoversOnce(admitted, lost, AnchorIds(h, i));
    LostAnchorsSize(h, i.partitions);
    WindowAnchorsSize(WindowRows(i));
    OrdersAreTotal();
    var rows := Map(i.anchors, Identified(h));
    SortSpec(rows, AnchorLe);
    SortMembers(rows, AnchorLe);
    DistinctIsCountOne(AnchorIds(h, i));
    forall a | a in i.anchors ensures h.anchor(a) in AnchorIds(h, i) {
      MapMembers(i.anchors, Identified(h));
      assert Identified(h)(a) in AnchorRows(h, i);
      MapMembers(AnchorRows(h, i), AnchorIdOf);
      assert AnchorIdOf(Identified(h)(a)) in AnchorIds(h, i);
    }
  }
}
