/** The occurrence closure of a commit cluster (evaluator/stage0_contract.py): the builder that
    counts, buckets and commits unresolved calls, and the public validator that re-derives what it
    can from the counts and identities alone.  Constant schema fields are not represented. */
module OccurrenceClosure {
  import opened Wrappers
  import opened Ordering
  import opened Grouping
  import opened Stage0Contract

  const MAX_SUMMARIES: int := 20000
  const MAX_BUCKETS: int := 8

  datatype Span = Span(startLine: int, startColumn: int, endLine: int, endColumn: int)
  datatype Draft = Draft(path: string, span: Span, sources: seq<string>, kind: string, reason: string)
  datatype AcceptedFile = AcceptedFile(source: string, path: string)
  datatype Body = Body(snapshot: string, file: string, path: string, span: Span, sources: seq<string>, call: Call)
  datatype Occurrence = Occurrence(id: string, body: Body)

  /** A call kind with the reason it stayed unresolved. */
  datatype Call = Call(kind: string, reason: string)

  datatype Bucket = Bucket(call: Call, count: int, digest: string)
  datatype SummaryBody = SummaryBody(snapshot: string, file: string, path: string, count: int, digest: string, buckets: seq<Bucket>)
  datatype Summary = Summary(id: string, body: SummaryBody)
  datatype Limitation = Limitation(id: string, snapshot: string, sources: seq<string>)
  datatype Identity = Identity(snapshot: string, revision: string, space: string, extraction: string)
  datatype Report = Report(id: string, identity: Identity, summaries: seq<Summary>, count: int, digest: string, limitation: Limitation)

  /** What the report id is taken of: the report with its summaries cut down to their ids. */
  datatype Preimage = Preimage(identity: Identity, summaryIds: seq<string>, count: int, digest: string, limitation: Limitation)

  datatype Coverage = Coverage(summaryIds: seq<string>, limitationIds: seq<string>, obstructionIds: seq<string>, count: int, digest: string)
  datatype Seed = Seed(cluster: string, wall: int, peak: int)
  datatype Metrics = Metrics(seed: Seed, reportBytes: int, summaryRows: int, count: int)
  datatype Closure = Closure(report: Report, coverage: Coverage, metrics: Metrics)

  /** The identity hashes, and the length of a report's canonical bytes. */
  datatype Hashes = Hashes(occurrence: Body -> string, summary: SummaryBody -> string, limitation: (string, seq<string>) -> string,
                           report: Preimage -> string, digest: seq<string> -> string, size: Report -> nat)

  datatype ContractError =
    | IdentityInvalid
    | AcceptedFileInvalid
    | AcceptedFileDuplicate
    | PathInvalid
    | FileNotAccepted
    | TaxonomyInvalid
    | SourcesInvalid
    | FileSourceMissing
    | SpanInvalid
    | OccurrenceDuplicate
    | BucketLimit
    | LimitationSourcesInvalid
    | MetricsInvalid
    | IntegerOutOfRange
    | SummaryInvalid
    | DuplicateFile
    | BucketInvalid
    | SummaryIdInvalid
    | SummaryOrderInvalid
    | LimitationInvalid
    | ReportCountInvalid
    | ReportIdInvalid
    | CoverageInvalid
    | MetricsMismatch

  /** `LEGAL_CALLS`, pair by pair. */
  const LEGAL_CALLS: seq<Call> := [
    Call("direct", "direct_non_path"), Call("direct", "direct_empty_path"), Call("direct", "direct_shadowed_binding"),
    Call("direct", "direct_unresolved_scope"), Call("direct", "direct_target_count_zero"), Call("direct", "direct_target_count_multiple"),
    Call("method", "method_dispatch_unresolved"), Call("macro_invocation", "macro_expansion_unresolved")]

  predicate CallLe(a: Call, b: Call) { if a.kind != b.kind then TextLe(a.kind, b.kind) else TextLe(a.reason, b.reason) }

  predicate SummaryLe(a: Summary, b: Summary) { TextLe(a.id, b.id) }

  lemma OrdersAreTotal()
    ensures TotalPreorder(TextLe) && TotalPreorder(CallLe) && TotalPreorder(SummaryLe)
    ensures forall a, b :: TextLe(a, b) && TextLe(b, a) ==> a == b
    ensures forall a, b :: CallLe(a, b) && CallLe(b, a) ==> a == b
  {
    TextLeIsTotalPreorder();
  }

  // ---- Accepted files and drafts ------------------------------------------------------------------

  function AcceptFrom(files: seq<AcceptedFile>, accepted: map<string, string>): Result<map<string, string>, ContractError> {
    if files == [] then Success(accepted)
    else if files[0].path == "" || files[0].source == "" then Failure(AcceptedFileInvalid)
    else if files[0].path in accepted || files[0].source in accepted.Values then Failure(AcceptedFileDuplicate)
    else AcceptFrom(files[1..], accepted[files[0].path := files[0].source])
  }

  lemma {:induction false} AcceptedAreInjective(files: seq<AcceptedFile>, accepted: map<string, string>)
    requires Injective(accepted) && AcceptFrom(files, accepted).Success?
    ensures Injective(AcceptFrom(files, accepted).value)
    ensures |AcceptFrom(files, accepted).value| == |accepted| + |files|
  {
    if files != [] {
      AcceptedAreInjective(files[1..], accepted[files[0].path := files[0].source]);
    }
  }

  /** The loop over accepted files. */
  method AcceptFiles(files: seq<AcceptedFile>) returns (r: Result<map<string, string>, ContractError>)
    ensures r == AcceptFrom(files, map[])
  {
    var accepted: map<string, string> := map[];
    for i := 0 to |files|
      invariant AcceptFrom(files, map[]) == AcceptFrom(files[i..], accepted)
    {
      var path, source := files[i].path, files[i].source;
      assert files[i..][0] == files[i] && files[i..][1..] == files[i + 1..];
      if path == "" || source == "" { return Failure(AcceptedFileInvalid); }
      if path in accepted || source in accepted.Values { return Failure(AcceptedFileDuplicate); }
      accepted := accepted[path := source];
    }
    return Success(accepted);
  }

  predicate PlacedCount(n: int) { IsCount(n) && n >= 1 }

  predicate SpanOrdered(s: Span) { s.startLine < s.endLine || (s.startLine == s.endLine && s.startColumn <= s.endColumn) }

  /** `_occurrence`. */
  function OccurrenceOf(h: Hashes, d: Draft, snapshot: string, accepted: map<string, string>): Result<Occurrence, ContractError> {
    if d.path == "" then Failure(PathInvalid)
    else if d.path !in accepted then Failure(FileNotAccepted)
    else if Call(d.kind, d.reason) !in LEGAL_CALLS then Failure(TaxonomyInvalid)
    else if d.sources == [] || !IdList(d.sources) then Failure(SourcesInvalid)
    else if accepted[d.path] !in d.sources then Failure(FileSourceMissing)
    else if !PlacedCount(d.span.startLine) || !PlacedCount(d.span.startColumn) || !PlacedCount(d.span.endLine) ||
            !PlacedCount(d.span.endColumn) || !SpanOrdered(d.span) then Failure(SpanInvalid)
    else var body := Body(snapshot, accepted[d.path], d.path, d.span, d.sources, Call(d.kind, d.reason));
         Success(Occurrence(h.occurrence(body), body))
  }

  function Taking(h: Hashes, snapshot: string, accepted: map<string, string>): Draft -> Result<Occurrence, ContractError> {
    (d: Draft) => OccurrenceOf(h, d, snapshot, accepted)
  }

  function OccurrencesFrom(h: Hashes, drafts: seq<Draft>, snapshot: string, accepted: map<string, string>): Result<seq<Occurrence>, ContractError> {
    Collect(drafts, Taking(h, snapshot, accepted))
  }

  // ---- Buckets and summaries -------------------------------------------------------------------------

  function FileOf(o: Occurrence): string { o.body.file }
  function CallOf(o: Occurrence): Call { o.body.call }
  function IdOf(o: Occurrence): string { o.id }
  function SummaryIdOf(s: Summary): string { s.id }

  function SortedIds(items: seq<Occurrence>): seq<string> { Sort(Map(items, IdOf), TextLe) }

  function BucketFor(h: Hashes, items: seq<Occurrence>, call: Call): Bucket {
    var ids := SortedIds(Having(items, CallOf, call));
    Bucket(call, |ids|, h.digest(ids))
  }

  function BucketsOver(h: Hashes, items: seq<Occurrence>, calls: seq<Call>): seq<Bucket> {
    seq(|calls|, i requires 0 <= i < |calls| => BucketFor(h, items, calls[i]))
  }

  function CallsOf(items: seq<Occurrence>): seq<Call> { Sort(Firsts(items, CallOf), CallLe) }

  function SummaryBodyOf(h: Hashes, snapshot: string, file: string, items: seq<Occurrence>): SummaryBody {
    SummaryBody(snapshot, file, if items == [] then "" else items[0].body.path, |SortedIds(items)|, h.digest(SortedIds(items)),
                BucketsOver(h, items, CallsOf(items)))
  }

  function SummaryOf(h: Hashes, snapshot: string, file: string, items: seq<Occurrence>): Summary {
    var body := SummaryBodyOf(h, snapshot, file, items);
    Summary(h.summary(body), body)
  }

  function FileSummary(h: Hashes, snapshot: string, file: string, items: seq<Occurrence>): Result<Summary, ContractError> {
    if |Firsts(items, CallOf)| > MAX_BUCKETS then Failure(BucketLimit)
    else if |items| > MAX_INTEGER then Failure(IntegerOutOfRange)
    else Success(SummaryOf(h, snapshot, file, items))
  }

  function Summarising(h: Hashes, snapshot: string, occurrences: seq<Occurrence>): string -> Result<Summary, ContractError> {
    (file: string) => FileSummary(h, snapshot, file, Having(occurrences, FileOf, file))
  }

  /** The summaries of the given files, in their order, or the first refusal. */
  function SummariesOver(h: Hashes, snapshot: string, occurrences: seq<Occurrence>, files: seq<string>): Result<seq<Summary>, ContractError> {
    Collect(files, Summarising(h, snapshot, occurrences))
  }

  function Assemble(h: Hashes, identity: Identity, occurrences: seq<Occurrence>, summaries: seq<Summary>, globals: seq<string>, seed: Seed): Closure {
    var ids, summaryIds := SortedIds(occurrences), Map(summaries, SummaryIdOf);
    var limitation := Limitation(h.limitation(identity.snapshot, globals), identity.snapshot, globals);
    var preimage := Preimage(identity, summaryIds, |ids|, h.digest(ids), limitation);
    var report := Report(h.report(preimage), identity, summaries, |ids|, h.digest(ids), limitation);
    Closure(report,
            Coverage(summaryIds, [limitation.id], Sort(summaryIds + [limitation.id], TextLe), |ids|, h.digest(ids)),
            Metrics(seed, h.size(report), |summaries|, |ids|))
  }

  predicate SeedValid(seed: Seed) { seed.cluster != "" && IsCount(seed.wall) && IsCount(seed.peak) }

  predicate IdentityNamed(i: Identity) { i.snapshot != "" && i.revision != "" && i.space != "" && i.extraction != "" }

  /** `build_occurrence_closure`. */
  function Build(h: Hashes, identity: Identity, files: seq<AcceptedFile>, drafts: seq<Draft>, globals: seq<string>, seed: Seed): Result<Closure, ContractError> {
    if !IdentityNamed(identity) then Failure(IdentityInvalid) else
    var accepted := AcceptFrom(files, map[]);
    if accepted.Failure? then Failure(accepted.error) else
    var occurrences := OccurrencesFrom(h, drafts, identity.snapshot, accepted.value);
    if occurrences.Failure? then Failure(occurrences.error)
    else if !Distinct(SortedIds(occurrences.value)) then Failure(OccurrenceDuplicate) else
    var summaries := SummariesOver(h, identity.snapshot, occurrences.value, Firsts(occurrences.value, FileOf));
    if summaries.Failure? then Failure(summaries.error)
    else if globals == [] || !IdList(globals) then Failure(LimitationSourcesInvalid)
    else if |occurrences.value| > MAX_INTEGER then Failure(IntegerOutOfRange)
    else if !SeedValid(seed) then Failure(MetricsInvalid)
    else Success(Assemble(h, identity, occurrences.value, Sort(summaries.value, SummaryLe), globals, seed))
  }

  ghost predicate GroupsOf<K>(items: seq<Occurrence>, key: Occurrence -> K, groups: map<K, seq<Occurrence>>, order: seq<K>) {
    forall k :: k in order ==> k in groups && groups[k] == Having(items, key, k)
  }

  /** The bucket loop of one file: counts and commits each group. */
  method CommitBuckets(h: Hashes, ghost items: seq<Occurrence>, calls: seq<Call>, groups: map<Call, seq<Occurrence>>) returns (buckets: seq<Bucket>)
    requires GroupsOf(items, CallOf, groups, calls)
    ensures buckets == BucketsOver(h, items, calls)
  {
    buckets := [];
    for i := 0 to |calls|
      invariant |buckets| == i && forall j :: 0 <= j < i ==> buckets[j] == BucketFor(h, items, calls[j])
    {
      assert calls[i] in calls;
      var ids := SortedIds(groups[calls[i]]);
      buckets := buckets + [Bucket(calls[i], |ids|, h.digest(ids))];
    }
  }

  method FillBuckets(h: Hashes, items: seq<Occurrence>) returns (distinct: nat, buckets: seq<Bucket>)
    ensures distinct == |Firsts(items, CallOf)|
    ensures buckets == BucketsOver(h, items, CallsOf(items))
  {
    var order, groups := Group(items, CallOf);
    OrdersAreTotal();
    SortMembers(order, CallLe);
    distinct := |order|;
    buckets := CommitBuckets(h, items, Sort(order, CallLe), groups);
  }

  lemma SortedIdsSize(items: seq<Occurrence>)
    ensures |SortedIds(items)| == |items|
  {
    OrdersAreTotal();
    SortSpec(Map(items, IdOf), TextLe);
  }

  /** One file's summary, or its refusal. */
  method SummariseFile(h: Hashes, snapshot: string, file: string, items: seq<Occurrence>) returns (r: Result<Summary, ContractError>)
    ensures r == FileSummary(h, snapshot, file, items)
  {
    var distinct, buckets := FillBuckets(h, items);
    if distinct > MAX_BUCKETS { return Failure(BucketLimit); }
    var ids := SortedIds(items);
    SortedIdsSize(items);
    if |ids| > MAX_INTEGER { return Failure(IntegerOutOfRange); }
    var body := SummaryBody(snapshot, file, if items == [] then "" else items[0].body.path, |ids|, h.digest(ids), buckets);
    return Success(Summary(h.summary(body), body));
  }

  /** The loop over `by_file`. */
  method Summarise(h: Hashes, snapshot: string, occurrences: seq<Occurrence>) returns (r: Result<seq<Summary>, ContractError>)
    ensures r == SummariesOver(h, snapshot, occurrences, Firsts(occurrences, FileOf))
  {
    var order, groups := Group(occurrences, FileOf);
    ghost var each := Summarising(h, snapshot, occurrences);
    var summaries: seq<Summary> := [];
    for i := 0 to |order|
      invariant Collect(order[..i], each) == Success(summaries)
    {
      var file := order[i];
      assert file in order;
      var summary := SummariseFile(h, snapshot, file, groups[file]);
      assert summary == each(file);
      CollectStep(order, each, i);
      if summary.Failure? {
        CollectStays(order, each, i + 1);
        return Failure(summary.error);
      }
      summaries := summaries + [summary.value];
    }
    assert order[..|order|] == order;
    return Success(summaries);
  }

  /** The builder. */
  method BuildClosure(h: Hashes, identity: Identity, files: seq<AcceptedFile>, drafts: seq<Draft>, globals: seq<string>, seed: Seed)
    returns (r: Result<Closure, ContractError>)
    ensures r == Build(h, identity, files, drafts, globals, seed)
  {
    if !IdentityNamed(identity) { return Failure(IdentityInvalid); }
    var accepted := AcceptFiles(files);
    if accepted.Failure? { return Failure(accepted.error); }
    var occurrences := OccurrencesFrom(h, drafts, identity.snapshot, accepted.value);
    if occurrences.Failure? { return Failure(occurrences.error); }
    if !Distinct(SortedIds(occurrences.value)) { return Failure(OccurrenceDuplicate); }
    var summaries := Summarise(h, identity.snapshot, occurrences.value);
    if summaries.Failure? { return Failure(summaries.error); }
    if globals == [] || !IdList(globals) { return Failure(LimitationSourcesInvalid); }
    if |occurrences.value| > MAX_INTEGER { return Failure(IntegerOutOfRange); }
    if !SeedValid(seed) { return Failure(MetricsInvalid); }
    return Success(Assemble(h, identity, occurrences.value, Sort(summaries.value, SummaryLe), globals, seed));
  }

  // ---- The public validator ---------------------------------------------------------------------------------

  function BucketCallOf(b: Bucket): Call { b.call }
  function BucketCountOf(b: Bucket): int { b.count }
  function SummaryFileOf(s: Summary): string { s.body.file }
  function SummaryCountOf(s: Summary): int { s.body.count }

  predicate BucketValid(b: Bucket) { b.call in LEGAL_CALLS && PlacedCount(b.count) }

  predicate InCallOrder(calls: seq<Call>) { calls == Sort(calls, CallLe) && Distinct(calls) }

  /** Legal, counted, in call order without repeats, and adding up to the file's count. */
  predicate BucketsValid(buckets: seq<Bucket>, count: int) {
    && 1 <= |buckets| <= MAX_BUCKETS && (forall b :: b in buckets ==> BucketValid(b)) && InCallOrder(Map(buckets, BucketCallOf))
    && Sum(Map(buckets, BucketCountOf)) == count
  }

  predicate SummaryValid(h: Hashes, snapshot: string, s: Summary) {
    s.body.snapshot == snapshot && PlacedCount(s.body.count) && BucketsValid(s.body.buckets, s.body.count) && s.id == h.summary(s.body)
  }

  predicate LimitationValid(h: Hashes, snapshot: string, l: Limitation) {
    l.snapshot == snapshot && l.sources != [] && IdList(l.sources) && l.id == h.limitation(l.snapshot, l.sources)
  }

  function PreimageOf(r: Report): Preimage { Preimage(r.identity, Map(r.summaries, SummaryIdOf), r.count, r.digest, r.limitation) }

  function CoverageOf(r: Report): Coverage {
    var summaryIds := Map(r.summaries, SummaryIdOf);
    Coverage(summaryIds, [r.limitation.id], Sort(summaryIds + [r.limitation.id], TextLe), r.count, r.digest)
  }

  predicate MetricsMatch(h: Hashes, r: Report, m: Metrics) {
    SeedValid(m.seed) && IsCount(m.reportBytes) && IsCount(m.summaryRows) && IsCount(m.count) &&
    m.summaryRows == |r.summaries| && m.count == r.count && m.reportBytes == h.size(r)
  }

  predicate EachValid(h: Hashes, snapshot: string, summaries: seq<Summary>) {
    forall s :: s in summaries ==> SummaryValid(h, snapshot, s)
  }

  predicate InIdOrder(ids: seq<string>) { ids == Sort(ids, TextLe) && Distinct(ids) }

  predicate SummariesValid(h: Hashes, snapshot: string, summaries: seq<Summary>) {
    && |summaries| <= MAX_SUMMARIES && EachValid(h, snapshot, summaries) && Distinct(Map(summaries, SummaryFileOf))
    && InIdOrder(Map(summaries, SummaryIdOf))
  }

  /** What `validate_occurrence_public` accepts. */
  predicate Acceptable(h: Hashes, c: Closure) {
    var r := c.report;
    && SummariesValid(h, r.identity.snapshot, r.summaries) && LimitationValid(h, r.identity.snapshot, r.limitation)
    && IsCount(r.count) && r.count == Sum(Map(r.summaries, SummaryCountOf)) && r.id == h.report(PreimageOf(r))
    && c.coverage == CoverageOf(r) && MetricsMatch(h, r, c.metrics)
  }

  lemma MapSnoc<A, B>(s: seq<A>, x: A, f: A -> B)
    ensures Map(s + [x], f) == Map(s, f) + [f(x)]
  {}

  /** The bucket loop: keys and running total. */
  method ScanBuckets(buckets: seq<Bucket>) returns (ok: bool, keys: seq<Call>, total: int)
    ensures ok <==> forall b :: b in buckets ==> BucketValid(b)
    ensures ok ==> keys == Map(buckets, BucketCallOf) && total == Sum(Map(buckets, BucketCountOf))
  {
    keys, total := [], 0;
    for i := 0 to |buckets|
      invariant keys == Map(buckets[..i], BucketCallOf) && total == Sum(Map(buckets[..i], BucketCountOf))
      invariant forall b :: b in buckets[..i] ==> BucketValid(b)
    {
      var b := buckets[i];
      assert b in buckets;
      if !BucketValid(b) { return false, keys, total; }
      assert buckets[..i + 1] == buckets[..i] + [b];
      MapSnoc(buckets[..i], b, BucketCountOf);
      MapSnoc(buckets[..i], b, BucketCallOf);
      SumSnoc(Map(buckets[..i], BucketCountOf), b.count);
      keys, total := keys + [b.call], total + b.count;
    }
    assert buckets[..|buckets|] == buckets;
    return true, keys, total;
  }

  method CheckBuckets(buckets: seq<Bucket>, count: int) returns (ok: bool)
    ensures ok <==> BucketsValid(buckets, count)
  {
    if |buckets| < 1 || |buckets| > MAX_BUCKETS { return false; }
    var keys, total;
    ok, keys, total := ScanBuckets(buckets);
    return ok && InCallOrder(keys) && total == count;
  }

  method CheckSummary(h: Hashes, snapshot: string, s: Summary, files: set<string>) returns (r: Option<ContractError>)
    ensures r == None <==> SummaryValid(h, snapshot, s) && s.body.file !in files
  {
    if s.body.snapshot != snapshot { return Some(SummaryInvalid); }
    if s.body.file in files { return Some(DuplicateFile); }
    if !IsCount(s.body.count) { return Some(SummaryInvalid); }
    if s.body.count < 1 { return Some(BucketInvalid); }
    var bucketed := CheckBuckets(s.body.buckets, s.body.count);
    if !bucketed { return Some(BucketInvalid); }
    if s.id != h.summary(s.body) { return Some(SummaryIdInvalid); }
    return None;
  }

  /** The files of the summaries so far, none twice. */
  ghost predicate Seen(summaries: seq<Summary>, files: set<string>) {
    Distinct(Map(summaries, SummaryFileOf)) && forall f :: f in files <==> f in Map(summaries, SummaryFileOf)
  }

  lemma SeenStep(summaries: seq<Summary>, s: Summary, files: set<string>)
    requires Seen(summaries, files)
    ensures s.body.file !in files ==> Seen(summaries + [s], files + {s.body.file})
    ensures s.body.file in files ==> !Distinct(Map(summaries + [s], SummaryFileOf))
  {
    MapSnoc(summaries, s, SummaryFileOf);
    var before, after := Map(summaries, SummaryFileOf), Map(summaries + [s], SummaryFileOf);
    if s.body.file in files {
      var j :| 0 <= j < |before| && before[j] == s.body.file;
      assert after[j] == after[|before|];
    } else {
      assert forall j :: 0 <= j < |before| ==> before[j] in before;
    }
  }

  lemma RepeatStays(summaries: seq<Summary>, i: nat)
    requires i <= |summaries| && !Distinct(Map(summaries[..i], SummaryFileOf))
    ensures !Distinct(Map(summaries, SummaryFileOf))
  {
    var front, all := Map(summaries[..i], SummaryFileOf), Map(summaries, SummaryFileOf);
    var j, k :| 0 <= j < k < |front| && front[j] == front[k];
    assert all[j] == all[k];
  }

  /** The loop over summaries: ids, file ids seen and the running total. */
  method ScanSummaries(h: Hashes, snapshot: string, summaries: seq<Summary>) returns (refusal: Option<ContractError>, ids: seq<string>, total: int)
    ensures refusal == None <==> EachValid(h, snapshot, summaries) && Distinct(Map(summaries, SummaryFileOf))
    ensures refusal == None ==> ids == Map(summaries, SummaryIdOf) && total == Sum(Map(summaries, SummaryCountOf))
  {
    ids, total := [], 0;
    var files: set<string> := {};
    for i := 0 to |summaries|
      invariant ids == Map(summaries[..i], SummaryIdOf) && total == Sum(Map(summaries[..i], SummaryCountOf))
      invariant Seen(summaries[..i], files) && EachValid(h, snapshot, summaries[..i])
    {
      var s := summaries[i];
      refusal := CheckSummary(h, snapshot, s, files);
      SeenStep(summaries[..i], s, files);
      assert summaries[..i + 1] == summaries[..i] + [s];
      if refusal.Some? {
        assert s in summaries;
        if s.body.file in files { RepeatStays(summaries, i + 1); }
        return;
      }
      MapSnoc(summaries[..i], s, SummaryCountOf);
      MapSnoc(summaries[..i], s, SummaryIdOf);
      SumSnoc(Map(summaries[..i], SummaryCountOf), s.body.count);
      ids, files, total := ids + [s.id], files + {s.body.file}, total + s.body.count;
    }
    assert summaries[..|summaries|] == summaries;
    refusal := None;
  }

  method CheckSummaries(h: Hashes, snapshot: string, summaries: seq<Summary>) returns (r: Result<int, ContractError>)
    ensures r.Success? <==> SummariesValid(h, snapshot, summaries)
    ensures r.Success? ==> r.value == Sum(Map(summaries, SummaryCountOf))
  {
    if |summaries| > MAX_SUMMARIES { return Failure(SummaryInvalid); }
    var refusal, ids, total := ScanSummaries(h, snapshot, summaries);
    if refusal.Some? { return Failure(refusal.value); }
    if !InIdOrder(ids) { return Failure(SummaryOrderInvalid); }
    return Success(total);
  }

  method ValidatePublic(h: Hashes, c: Closure) returns (r: Result<Closure, ContractError>)
    ensures r.Success? <==> Acceptable(h, c)
    ensures r.Success? ==> r.value == c
  {
    var report := c.report;
    var total := CheckSummaries(h, report.identity.snapshot, report.summaries);
    if total.Failure? { return Failure(total.error); }
    if !LimitationValid(h, report.identity.snapshot, report.limitation) { return Failure(LimitationInvalid); }
    if !IsCount(report.count) || report.count != total.value { return Failure(ReportCountInvalid); }
    if report.id != h.report(PreimageOf(report)) { return Failure(ReportIdInvalid); }
    if c.coverage != CoverageOf(report) { return Failure(CoverageInvalid); }
    if !MetricsMatch(h, report, c.metrics) { return Failure(MetricsMismatch); }
    return Success(c);
  }

  // ---- The builder meets the validator ------------------------------------------------------------------------

  /** Occurrences as the builder takes them: of legal calls, in files with one path each. */
  ghost predicate WellTaken(occurrences: seq<Occurrence>) {
    && (forall o :: o in occurrences ==> o.body.call in LEGAL_CALLS)
    && (forall o, p :: o in occurrences && p in occurrences && o.body.file == p.body.file ==> o.body.path == p.body.path)
  }

  lemma TakenAreWellTaken(h: Hashes, drafts: seq<Draft>, snapshot: string, accepted: map<string, string>)
    requires Injective(accepted) && OccurrencesFrom(h, drafts, snapshot, accepted).Success?
    ensures WellTaken(OccurrencesFrom(h, drafts, snapshot, accepted).value)
    ensures forall o :: o in OccurrencesFrom(h, drafts, snapshot, accepted).value ==> o.body.file in accepted.Values
    ensures |OccurrencesFrom(h, drafts, snapshot, accepted).value| == |drafts|
  {
    var f := Taking(h, snapshot, accepted);
    CollectEach(drafts, f);
    var occurrences := OccurrencesFrom(h, drafts, snapshot, accepted).value;
    forall o | o in occurrences ensures o.body.call in LEGAL_CALLS && o.body.path in accepted && accepted[o.body.path] == o.body.file {
      var i :| 0 <= i < |occurrences| && occurrences[i] == o;
      assert f(drafts[i]).Success? && o == f(drafts[i]).value;
    }
  }

  /** There are only eight legal pairs, so no file can have more buckets. */
  lemma BucketLimitUnreachable(occurrences: seq<Occurrence>, file: string)
    requires WellTaken(occurrences)
    ensures |Firsts(Having(occurrences, FileOf, file), CallOf)| <= MAX_BUCKETS
  {
    var items := Having(occurrences, FileOf, file);
    HavingMembers(occurrences, FileOf, file);
    FirstsSpec(items, CallOf);
    DistinctWithin(Firsts(items, CallOf), LEGAL_CALLS);
  }

  predicate FileFits(occurrences: seq<Occurrence>, file: string) { |Having(occurrences, FileOf, file)| <= MAX_INTEGER }

  lemma FileIsSummarised(h: Hashes, snapshot: string, occurrences: seq<Occurrence>, file: string)
    requires WellTaken(occurrences)
    ensures FileSummary(h, snapshot, file, Having(occurrences, FileOf, file)) ==
            if FileFits(occurrences, file) then Success(Summarised(h, snapshot, occurrences, file)) else Failure(IntegerOutOfRange)
  {
    BucketLimitUnreachable(occurrences, file);
  }

  function Summarised(h: Hashes, snapshot: string, occurrences: seq<Occurrence>, file: string): Summary {
    SummaryOf(h, snapshot, file, Having(occurrences, FileOf, file))
  }

  lemma SummariesAreEach(h: Hashes, snapshot: string, occurrences: seq<Occurrence>, files: seq<string>)
    requires WellTaken(occurrences)
    ensures var r := SummariesOver(h, snapshot, occurrences, files);
            && (r.Success? <==> forall i :: 0 <= i < |files| ==> FileFits(occurrences, files[i]))
            && (r.Success? ==> |r.value| == |files| && forall i :: 0 <= i < |files| ==> r.value[i] == Summarised(h, snapshot, occurrences, files[i]))
            && (r.Failure? ==> r.error == IntegerOutOfRange)
  {
    var f := Summarising(h, snapshot, occurrences);
    CollectEach(files, f);
    forall i | 0 <= i < |files|
      ensures f(files[i]) == if FileFits(occurrences, files[i]) then Success(Summarised(h, snapshot, occurrences, files[i])) else Failure(IntegerOutOfRange)
    {
      FileIsSummarised(h, snapshot, occurrences, files[i]);
    }
  }

  lemma BucketsOfFileAreValid(h: Hashes, items: seq<Occurrence>)
    requires items != [] && |items| <= MAX_INTEGER && (forall o :: o in items ==> o.body.call in LEGAL_CALLS)
    ensures BucketsValid(BucketsOver(h, items, CallsOf(items)), |items|)
  {
    var first, calls := Firsts(items, CallOf), CallsOf(items);
    var buckets := BucketsOver(h, items, calls);
    FirstsSpec(items, CallOf);
    OrdersAreTotal();
    SortSpec(first, CallLe);
    SortMembers(first, CallLe);
    DistinctIgnoresOrder(first, calls);
    DistinctWithin(calls, LEGAL_CALLS);
    assert Map(buckets, BucketCallOf) == calls;
    SortFixesSorted(calls, CallLe);
    GroupsPartition(items, CallOf, calls);
    forall i | 0 <= i < |calls| ensures buckets[i].count == |Having(items, CallOf, calls[i])| && BucketValid(buckets[i]) {
      assert calls[i] in calls && calls[i] in first;
      BucketIsCounted(h, items, calls[i]);
    }
    assert Map(buckets, BucketCountOf) == Sizes(items, CallOf, calls);
  }

  lemma BucketIsCounted(h: Hashes, items: seq<Occurrence>, call: Call)
    requires call in Firsts(items, CallOf) && |items| <= MAX_INTEGER && (forall o :: o in items ==> o.body.call in LEGAL_CALLS)
    ensures BucketFor(h, items, call).count == |Having(items, CallOf, call)| && BucketValid(BucketFor(h, items, call))
  {
    FirstsSpec(items, CallOf);
    HavingMembers(items, CallOf, call);
    HavingSize(items, CallOf, call);
    SortedIdsSize(Having(items, CallOf, call));
    var o :| o in items && CallOf(o) == call;
    assert o in Having(items, CallOf, call);
  }

  lemma SummaryOfFileIsValid(h: Hashes, snapshot: string, occurrences: seq<Occurrence>, file: string)
    requires WellTaken(occurrences) && file in Firsts(occurrences, FileOf) && |Having(occurrences, FileOf, file)| <= MAX_INTEGER
    ensures SummaryValid(h, snapshot, Summarised(h, snapshot, occurrences, file))
    ensures Summarised(h, snapshot, occurrences, file).body.count == |Having(occurrences, FileOf, file)|
  {
    var items := Having(occurrences, FileOf, file);
    FirstsSpec(occurrences, FileOf);
    HavingMembers(occurrences, FileOf, file);
    var o :| o in occurrences && FileOf(o) == file;
    assert o in items;
    SortedIdsSize(items);
    BucketsOfFileAreValid(h, items);
  }

  /** Distinct summary bodies have distinct ids. */
  ghost predicate SummaryIdsApart(h: Hashes) {
    forall a, b :: h.summary(a) == h.summary(b) ==> a == b
  }

  /** The builder's summaries before the sort, one per file. */
  ghost predicate Made(h: Hashes, snapshot: string, occurrences: seq<Occurrence>, summaries: seq<Summary>) {
    var files := Firsts(occurrences, FileOf);
    && |summaries| == |files|
    && forall i :: 0 <= i < |files| ==>
         && summaries[i] == SummaryOf(h, snapshot, files[i], Having(occurrences, FileOf, files[i]))
         && SummaryValid(h, snapshot, summaries[i])
         && summaries[i].body.count == |Having(occurrences, FileOf, files[i])|
  }

  lemma SummariesAreMade(h: Hashes, snapshot: string, occurrences: seq<Occurrence>, summaries: seq<Summary>)
    requires WellTaken(occurrences) && SummariesOver(h, snapshot, occurrences, Firsts(occurrences, FileOf)) == Success(summaries)
    ensures Made(h, snapshot, occurrences, summaries)
  {
    var files := Firsts(occurrences, FileOf);
    SummariesAreEach(h, snapshot, occurrences, files);
    forall i | 0 <= i < |files|
      ensures SummaryValid(h, snapshot, summaries[i]) && summaries[i].body.count == |Having(occurrences, FileOf, files[i])|
    {
      assert FileFits(occurrences, files[i]);
      SummaryOfFileIsValid(h, snapshot, occurrences, files[i]);
    }
  }

  /** Conservation: the summaries' counts add up to the occurrences. */
  lemma CountsAddUp(h: Hashes, snapshot: string, occurrences: seq<Occurrence>, summaries: seq<Summary>, rows: seq<Summary>)
    requires Made(h, snapshot, occurrences, summaries) && multiset(rows) == multiset(summaries)
    ensures Sum(Map(rows, SummaryCountOf)) == |occurrences|
  {
    var files := Firsts(occurrences, FileOf);
    FirstsSpec(occurrences, FileOf);
    MapIgnoresOrder(rows, summaries, SummaryCountOf);
    SumIgnoresOrder(Map(rows, SummaryCountOf), Map(summaries, SummaryCountOf));
    assert Map(summaries, SummaryCountOf) == Sizes(occurrences, FileOf, files);
    GroupsPartition(occurrences, FileOf, files);
  }

  lemma MadeAreValid(h: Hashes, snapshot: string, occurrences: seq<Occurrence>, summaries: seq<Summary>)
    requires Made(h, snapshot, occurrences, summaries)
    ensures EachValid(h, snapshot, summaries) && Map(summaries, SummaryFileOf) == Firsts(occurrences, FileOf)
  {}

  /** The sorted summaries of the builder: valid, in order, one per file. */
  lemma BuiltSummaries(h: Hashes, snapshot: string, occurrences: seq<Occurrence>, summaries: seq<Summary>, rows: seq<Summary>)
    requires Made(h, snapshot, occurrences, summaries) && SummaryIdsApart(h)
    requires multiset(rows) == multiset(summaries) && Sorted(rows, SummaryLe)
    ensures |rows| <= MAX_SUMMARIES <==> SummariesValid(h, snapshot, rows)
  {
    FirstsSpec(occurrences, FileOf);
    MadeAreValid(h, snapshot, occurrences, summaries);
    MultisetMembers(rows, summaries);
    BuiltSummariesApart(h, summaries, rows, Firsts(occurrences, FileOf));
  }

  lemma BuiltSummariesApart(h: Hashes, summaries: seq<Summary>, rows: seq<Summary>, files: seq<string>)
    requires SummaryIdsApart(h) && Map(summaries, SummaryFileOf) == files && Distinct(files)
    requires forall s :: s in summaries ==> s.id == h.summary(s.body)
    requires multiset(rows) == multiset(summaries) && Sorted(rows, SummaryLe)
    ensures Distinct(Map(rows, SummaryFileOf))
    ensures InIdOrder(Map(rows, SummaryIdOf))
  {
    MapIgnoresOrder(rows, summaries, SummaryFileOf);
    DistinctIgnoresOrder(Map(rows, SummaryFileOf), files);
    var ids := Map(summaries, SummaryIdOf);
    forall i, j | 0 <= i < j < |ids| ensures ids[i] != ids[j] {
      assert files[i] != files[j] && summaries[i] in summaries && summaries[j] in summaries;
    }
    MapIgnoresOrder(rows, summaries, SummaryIdOf);
    DistinctIgnoresOrder(Map(rows, SummaryIdOf), ids);
    OrdersAreTotal();
    forall i, j | 0 <= i < j < |rows| ensures TextLe(Map(rows, SummaryIdOf)[i], Map(rows, SummaryIdOf)[j]) {
      assert SummaryLe(rows[i], rows[j]);
    }
    SortFixesSorted(Map(rows, SummaryIdOf), TextLe);
  }

  /** What a closure the builder returns is made of. */
  lemma Unpack(h: Hashes, identity: Identity, files: seq<AcceptedFile>, drafts: seq<Draft>, globals: seq<string>, seed: Seed)
    returns (occurrences: seq<Occurrence>, summaries: seq<Summary>)
    requires Build(h, identity, files, drafts, globals, seed).Success?
    ensures WellTaken(occurrences) && |occurrences| == |drafts| <= MAX_INTEGER && Made(h, identity.snapshot, occurrences, summaries)
    ensures AcceptFrom(files, map[]).Success?
    ensures OccurrencesFrom(h, drafts, identity.snapshot, AcceptFrom(files, map[]).value) == Success(occurrences)
    ensures SummariesOver(h, identity.snapshot, occurrences, Firsts(occurrences, FileOf)) == Success(summaries)
    ensures IdentityNamed(identity) && globals != [] && IdList(globals) && SeedValid(seed) && Distinct(SortedIds(occurrences))
    ensures Build(h, identity, files, drafts, globals, seed) ==
            Success(Assemble(h, identity, occurrences, Sort(summaries, SummaryLe), globals, seed))
    ensures |summaries| <= |files|
  {
    var accepted := AcceptFrom(files, map[]).value;
    AcceptedAreInjective(files, map[]);
    TakenAreWellTaken(h, drafts, identity.snapshot, accepted);
    occurrences := OccurrencesFrom(h, drafts, identity.snapshot, accepted).value;
    summaries := SummariesOver(h, identity.snapshot, occurrences, Firsts(occurrences, FileOf)).value;
    SummariesAreMade(h, identity.snapshot, occurrences, summaries);
    FirstsWithin(occurrences, accepted);
  }

  lemma FirstsWithin(occurrences: seq<Occurrence>, accepted: map<string, string>)
    requires forall o :: o in occurrences ==> o.body.file in accepted.Values
    ensures |Firsts(occurrences, FileOf)| <= |accepted|
  {
    var files := Firsts(occurrences, FileOf);
    FirstsSpec(occurrences, FileOf);
    CardinalityOfDistinct(files);
    SubsetSize((set f | f in files), accepted.Values);
    ValuesSize(accepted);
  }

  lemma {:induction false} ValuesSize(m: map<string, string>)
    ensures |m.Values| <= |m|
    decreases |m|
  {
    if m.Keys != {} {
      var k :| k in m.Keys;
      var rest := m - {k};
      ValuesSize(rest);
      assert m.Values <= rest.Values + {m[k]} by {
        forall v | v in m.Values ensures v in rest.Values + {m[k]} {
          var j :| j in m && m[j] == v;
          assert j != k ==> j in rest && rest[j] == v;
        }
      }
      SubsetSize(m.Values, rest.Values + {m[k]});
      assert |m| == |m.Keys| && m.Keys == rest.Keys + {k};
    }
  }

  /** Whatever the builder returns for at most 20000 files passes the public validator exactly when
      the report's canonical bytes number at most 2^53 - 1: the builder does not check that number,
      the validator does. */
  lemma BuilderMeetsValidator(h: Hashes, identity: Identity, files: seq<AcceptedFile>, drafts: seq<Draft>, globals: seq<string>, seed: Seed)
    requires SummaryIdsApart(h) && |files| <= MAX_SUMMARIES && Build(h, identity, files, drafts, globals, seed).Success?
    ensures var c := Build(h, identity, files, drafts, globals, seed).value;
            Acceptable(h, c) <==> h.size(c.report) <= MAX_INTEGER
  {
    var occurrences, summaries := Unpack(h, identity, files, drafts, globals, seed);
    var rows := Sort(summaries, SummaryLe);
    OrdersAreTotal();
    SortSpec(summaries, SummaryLe);
    BuiltSummaries(h, identity.snapshot, occurrences, summaries, rows);
    CountsAddUp(h, identity.snapshot, occurrences, summaries, rows);
    AssembledIsAcceptable(h, identity, occurrences, rows, globals, seed);
  }

  /** Canonical bytes are no fewer than the characters of the revision they hold. */
  ghost predicate SizeHoldsRevision(h: Hashes) { forall r: Report :: |r.identity.revision| <= h.size(r) }

  lemma OneIsIdList(id: string)
    requires id != ""
    ensures IdList([id])
  {
    assert [id][1..] == [] && Sort([id], TextLe) == Insert(id, [], TextLe);
  }

  /** Without a draft or a file: a revision too long to count is built into a closure that is refused. */
  lemma LongRevisionIsRefused(h: Hashes, revision: string)
    requires SummaryIdsApart(h) && SizeHoldsRevision(h) && |revision| > MAX_INTEGER
    ensures var built := Build(h, Identity("s", revision, "p", "e"), [], [], ["g"], Seed("c", 0, 0));
            built.Success? && !Acceptable(h, built.value)
  {
    var identity := Identity("s", revision, "p", "e");
    OneIsIdList("g");
    assert OccurrencesFrom(h, [], "s", map[]) == Success([]);
    assert SortedIds([]) == [];
    var built := Build(h, identity, [], [], ["g"], Seed("c", 0, 0));
    assert built.value.report.identity == identity;
    BuilderMeetsValidator(h, identity, [], [], ["g"], Seed("c", 0, 0));
  }

  lemma AssembledIsAcceptable(h: Hashes, identity: Identity, occurrences: seq<Occurrence>, rows: seq<Summary>, globals: seq<string>, seed: Seed)
    requires SummariesValid(h, identity.snapshot, rows) && Sum(Map(rows, SummaryCountOf)) == |occurrences| <= MAX_INTEGER
    requires globals != [] && IdList(globals) && SeedValid(seed)
    ensures var c := Assemble(h, identity, occurrences, rows, globals, seed); Acceptable(h, c) <==> h.size(c.report) <= MAX_INTEGER
  {
    SortedIdsSize(occurrences);
    var c := Assemble(h, identity, occurrences, rows, globals, seed);
    assert PreimageOf(c.report) == Preimage(identity, Map(rows, SummaryIdOf), c.report.count, c.report.digest, c.report.limitation);
    assert CoverageOf(c.report) == c.coverage;
  }

  lemma BucketCountsAddUp(h: Hashes, snapshot: string, occurrences: seq<Occurrence>, summaries: seq<Summary>, s: Summary)
    requires Made(h, snapshot, occurrences, summaries) && s in Sort(summaries, SummaryLe)
    ensures Sum(Map(s.body.buckets, BucketCountOf)) == s.body.count
  {
    OrdersAreTotal();
    SortMembers(summaries, SummaryLe);
    MadeAreValid(h, snapshot, occurrences, summaries);
    assert s in summaries && SummaryValid(h, snapshot, s);
  }

  /** Bucket counts add up to their file's count, file counts to the report's count, and that is the
      number of drafts. */
  lemma CountsAreConserved(h: Hashes, identity: Identity, files: seq<AcceptedFile>, drafts: seq<Draft>, globals: seq<string>, seed: Seed)
    requires Build(h, identity, files, drafts, globals, seed).Success?
    ensures var c := Build(h, identity, files, drafts, globals, seed).value;
            && c.report.count == c.coverage.count == c.metrics.count == |drafts| == Sum(Map(c.report.summaries, SummaryCountOf))
            && forall s :: s in c.report.summaries ==> Sum(Map(s.body.buckets, BucketCountOf)) == s.body.count
  {
    var occurrences, summaries := Unpack(h, identity, files, drafts, globals, seed);
    OrdersAreTotal();
    SortSpec(summaries, SummaryLe);
    CountsAddUp(h, identity.snapshot, occurrences, summaries, Sort(summaries, SummaryLe));
    SortedIdsSize(occurrences);
    forall s | s in Sort(summaries, SummaryLe) ensures Sum(Map(s.body.buckets, BucketCountOf)) == s.body.count {
      BucketCountsAddUp(h, identity.snapshot, occurrences, summaries, s);
    }
  }

  /** The builder never refuses for a bucket count. */
  lemma NeverTooManyBuckets(h: Hashes, identity: Identity, files: seq<AcceptedFile>, drafts: seq<Draft>, globals: seq<string>, seed: Seed)
    ensures Build(h, identity, files, drafts, globals, seed) != Failure(BucketLimit)
  {
    var accepted := AcceptFrom(files, map[]);
    if accepted.Success? {
      AcceptedAreInjective(files, map[]);
      var occurrences := OccurrencesFrom(h, drafts, identity.snapshot, accepted.value);
      OtherRefusals(h, drafts, identity.snapshot, accepted.value);
      if occurrences.Success? {
        TakenAreWellTaken(h, drafts, identity.snapshot, accepted.value);
        SummariesAreEach(h, identity.snapshot, occurrences.value, Firsts(occurrences.value, FileOf));
      }
    } else {
      AcceptRefusals(files, map[]);
    }
  }

  lemma {:induction false} AcceptRefusals(files: seq<AcceptedFile>, accepted: map<string, string>)
    ensures AcceptFrom(files, accepted) != Failure(BucketLimit)
  {
    if files != [] { AcceptRefusals(files[1..], accepted[files[0].path := files[0].source]); }
  }

  lemma OtherRefusals(h: Hashes, drafts: seq<Draft>, snapshot: string, accepted: map<string, string>)
    ensures OccurrencesFrom(h, drafts, snapshot, accepted) != Failure(BucketLimit)
  {
    CollectEach(drafts, Taking(h, snapshot, accepted));
  }

  // ---- Draft order ------------------------------------------------------------------------------------------

  lemma SortedIdsIgnoreOrder(a: seq<Occurrence>, b: seq<Occurrence>)
    requires multiset(a) == multiset(b)
    ensures SortedIds(a) == SortedIds(b)
  {
    OrdersAreTotal();
    MapIgnoresOrder(a, b, IdOf);
    SortIgnoresOrder(Map(a, IdOf), Map(b, IdOf), TextLe);
  }

  lemma SummaryIgnoresOrder(h: Hashes, snapshot: string, file: string, a: seq<Occurrence>, b: seq<Occurrence>)
    requires multiset(a) == multiset(b)
    requires forall o, p :: o in a && p in a ==> o.body.path == p.body.path
    ensures SummaryOf(h, snapshot, file, a) == SummaryOf(h, snapshot, file, b)
  {
    MultisetMembers(a, b);
    assert a != [] ==> a[0] in a && b[0] in a;
    SortedIdsIgnoreOrder(a, b);
    OrdersAreTotal();
    FirstsIgnoresOrder(a, b, CallOf);
    SortIgnoresOrder(Firsts(a, CallOf), Firsts(b, CallOf), CallLe);
    forall call ensures BucketFor(h, a, call) == BucketFor(h, b, call) {
      HavingIgnoresOrder(a, b, CallOf, call);
      SortedIdsIgnoreOrder(Having(a, CallOf, call), Having(b, CallOf, call));
    }
    assert BucketsOver(h, a, CallsOf(a)) == BucketsOver(h, b, CallsOf(b));
  }

  lemma FileSummaryIgnoresOrder(h: Hashes, snapshot: string, file: string, a: seq<Occurrence>, b: seq<Occurrence>)
    requires multiset(a) == multiset(b) && WellTaken(a)
    ensures Summarised(h, snapshot, a, file) == Summarised(h, snapshot, b, file)
    ensures FileFits(a, file) <==> FileFits(b, file)
  {
    HavingIgnoresOrder(a, b, FileOf, file);
    HavingMembers(a, FileOf, file);
    MultisetMembers(Having(a, FileOf, file), Having(b, FileOf, file));
    SummaryIgnoresOrder(h, snapshot, file, Having(a, FileOf, file), Having(b, FileOf, file));
  }

  /** The same occurrences in any order give the same summaries, once sorted. */
  lemma SummariesIgnoreOrder(h: Hashes, snapshot: string, a: seq<Occurrence>, b: seq<Occurrence>, summaries: seq<Summary>)
    requires multiset(a) == multiset(b) && WellTaken(a) && WellTaken(b) && SummaryIdsApart(h)
    requires SummariesOver(h, snapshot, a, Firsts(a, FileOf)) == Success(summaries)
    ensures SummariesOver(h, snapshot, b, Firsts(b, FileOf)).Success?
    ensures Sort(SummariesOver(h, snapshot, b, Firsts(b, FileOf)).value, SummaryLe) == Sort(summaries, SummaryLe)
  {
    var f, g := Firsts(a, FileOf), Firsts(b, FileOf);
    FirstsIgnoresOrder(a, b, FileOf);
    CollectIgnoresOrder(f, g, Summarising(h, snapshot, a));
    CollectEach(f, Summarising(h, snapshot, a));
    forall i | 0 <= i < |g| ensures Summarising(h, snapshot, a)(g[i]) == Summarising(h, snapshot, b)(g[i]) {
      FileSummaryIgnoresOrder(h, snapshot, g[i], a, b);
      FileIsSummarised(h, snapshot, a, g[i]);
      FileIsSummarised(h, snapshot, b, g[i]);
    }
    CollectAgrees(g, Summarising(h, snapshot, a), Summarising(h, snapshot, b));
    SummariesAreEach(h, snapshot, a, f);
    OrdersAreTotal();
    KeyedById(h, summaries);
    SortIgnoresOrder(summaries, SummariesOver(h, snapshot, b, g).value, SummaryLe);
  }

  lemma KeyedById(h: Hashes, summaries: seq<Summary>)
    requires SummaryIdsApart(h) && forall s :: s in summaries ==> s.id == h.summary(s.body)
    ensures KeyedBy(summaries, SummaryLe)
  {
    OrdersAreTotal();
  }

  /** Draft order does not matter: whenever one order succeeds, every order returns the same closure. */
  lemma DraftOrderDoesNotMatter(h: Hashes, identity: Identity, files: seq<AcceptedFile>, a: seq<Draft>, b: seq<Draft>, globals: seq<string>, seed: Seed)
    requires SummaryIdsApart(h) && multiset(a) == multiset(b) && Build(h, identity, files, a, globals, seed).Success?
    ensures Build(h, identity, files, b, globals, seed) == Build(h, identity, files, a, globals, seed)
  {
    var occurrences, summaries := Unpack(h, identity, files, a, globals, seed);
    var accepted := AcceptFrom(files, map[]).value;
    AcceptedAreInjective(files, map[]);
    CollectIgnoresOrder(a, b, Taking(h, identity.snapshot, accepted));
    TakenAreWellTaken(h, b, identity.snapshot, accepted);
    var other := OccurrencesFrom(h, b, identity.snapshot, accepted).value;
    SortedIdsIgnoreOrder(occurrences, other);
    SummariesIgnoreOrder(h, identity.snapshot, occurrences, other, summaries);
    MultisetMembers(a, b);
    BuildIs(h, identity, files, b, globals, seed, other, SummariesOver(h, identity.snapshot, other, Firsts(other, FileOf)).value);
    AssembledIgnoresOrder(h, identity, occurrences, other, Sort(summaries, SummaryLe), globals, seed);
  }

  lemma BuildIs(h: Hashes, identity: Identity, files: seq<AcceptedFile>, drafts: seq<Draft>, globals: seq<string>, seed: Seed,
                occurrences: seq<Occurrence>, summaries: seq<Summary>)
    requires IdentityNamed(identity) && globals != [] && IdList(globals) && SeedValid(seed) && |occurrences| <= MAX_INTEGER
    requires AcceptFrom(files, map[]).Success?
    requires OccurrencesFrom(h, drafts, identity.snapshot, AcceptFrom(files, map[]).value) == Success(occurrences)
    requires Distinct(SortedIds(occurrences))
    requires SummariesOver(h, identity.snapshot, occurrences, Firsts(occurrences, FileOf)) == Success(summaries)
    ensures Build(h, identity, files, drafts, globals, seed) ==
            Success(Assemble(h, identity, occurrences, Sort(summaries, SummaryLe), globals, seed))
  {}

  lemma AssembledIgnoresOrder(h: Hashes, identity: Identity, a: seq<Occurrence>, b: seq<Occurrence>, rows: seq<Summary>, globals: seq<string>, seed: Seed)
    requires SortedIds(a) == SortedIds(b)
    ensures Assemble(h, identity, a, rows, globals, seed) == Assemble(h, identity, b, rows, globals, seed)
  {}
}
