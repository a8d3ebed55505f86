/** The two arms of a paired unit, their packets, byte budget and comparison opportunity
    (evaluator/pipeline.py `_arm`, `_opportunity`, `_packet`, `_budget`). */
module PairedArms {
  import opened Wrappers
  import opened Ordering
  import opened Grouping
  import P = SourcePayload
  import W = WindowAlgebra
  import F = FrozenObligation

  datatype SourceBody = SourceBody(role: W.Role, side: W.Side, path: string, start: int, end: int, payload: string, bytes: int, sha: string)
  datatype SourceRecord = SourceRecord(id: string, body: SourceBody)
  datatype Payload = Payload(id: string, length: int, sha: string, text: seq<P.Byte>)

  /** What a loss id is taken of. */
  datatype LossBody =
    | TaskLoss(reason: string, scope: string, recovery: string, question: string, support: seq<string>)
    | RoutineLoss(recovery: string)

  /** A declared loss; a routine one poses no question. */
  datatype Loss = Loss(id: string, reason: string, scope: string, recovery: string, eligible: bool, question: Option<string>)
  datatype HiddenLoss = HiddenLoss(id: string, task: string, key: string, question: string, support: seq<string>)

  datatype Arm = Arm(id: string, sources: seq<SourceRecord>, payloads: seq<Payload>, losses: seq<Loss>, hidden: seq<HiddenLoss>, routine: Loss)

  datatype InventoryBody = InventoryBody(sources: seq<SourceRecord>, losses: seq<Loss>)
  datatype Packet = Packet(task: string, inventoryId: string, canonical: string, inventory: InventoryBody, payloads: seq<Payload>)

  /** A projection's asserted hash, its recomputed hash, and the obstruction a mismatch is named by. */
  datatype Projected = Projected(canonical: string, computed: string, obstruction: string)

  /** The identity hashes. */
  datatype Names = Names(sha: seq<P.Byte> -> string, payload: (string, int) -> string, source: SourceBody -> string,
                         obstruction: (string, string) -> string, unresolved: F.Reference -> string,
                         question: (string, string) -> string, recovery: (string, string, seq<string>) -> string,
                         routineRecovery: (string, string, string) -> string, loss: LossBody -> string,
                         inventory: InventoryBody -> string, inventoryHash: InventoryBody -> string)

  /** Distinct source bodies and distinct loss bodies have distinct ids. */
  ghost predicate IdsApart(n: Names) {
    (forall a, b :: n.source(a) == n.source(b) ==> a == b) && (forall a, b :: n.loss(a) == n.loss(b) ==> a == b)
  }

  datatype ArmError = DuplicateInternalSource

  // ---- The question registry ------------------------------------------------------------------------------

  datatype Entry = Entry(key: string, reason: string, scope: string)

  const ROUTINE: string := "routine_scope_omission"
  const SOURCE_ENTRY: Entry := Entry("required_source_body", "task_blocking_source_unavailable", "source")
  const REFERENCE_ENTRY: Entry := Entry("required_reference_target", "task_blocking_reference_unresolved", "reference")
  const PROJECTION_ENTRY: Entry := Entry("required_projection_integrity", "task_blocking_projection_integrity", "projection")

  const REGISTRY: seq<Entry> := [SOURCE_ENTRY, REFERENCE_ENTRY, PROJECTION_ENTRY]

  // ---- One spec -------------------------------------------------------------------------------------------

  datatype Taken = Admitted(source: SourceRecord, payload: Payload) | Unavailable(obstruction: string)

  function KindOf(o: P.Obstruction): string {
    match o
    case SpanInvalid => "span_invalid"
    case NonUtf8Source => "non_utf8_source"
    case SpanOutOfBounds => "span_out_of_bounds"
  }

  /** The excerpt of a spec, or the kind of obstruction. */
  function Read(blobs: W.Blobs, w: W.Window): Result<seq<P.Byte>, string> {
    match blobs(w.side, w.path, w.blob)
    case None => Failure("blob_unavailable")
    case Some(file) =>
      match P.Excerpt(file, w.start, w.end)
      case Payload(bytes) => Success(bytes)
      case Obstructed(kind) => Failure(KindOf(kind))
  }

  /** `payload_record`. */
  function PayloadOf(n: Names, bytes: seq<P.Byte>): Payload {
    Payload(n.payload(n.sha(bytes), |bytes|), |bytes|, n.sha(bytes), bytes)
  }

  /** `source_record`. */
  function SourceOf(n: Names, w: W.Window, p: Payload): SourceRecord {
    var body := SourceBody(w.role, w.side, w.path, w.start, w.end, p.id, p.length, p.sha);
    SourceRecord(n.source(body), body)
  }

  function Take(n: Names, blobs: W.Blobs, s: W.Spec): Taken {
    match Read(blobs, s.body)
    case Success(bytes) => Admitted(SourceOf(n, s.body, PayloadOf(n, bytes)), PayloadOf(n, bytes))
    case Failure(kind) => Unavailable(n.obstruction(s.requiredId, kind))
  }

  // ---- The arm ----------------------------------------------------------------------------------------------

  function Sources(n: Names, blobs: W.Blobs, specs: seq<W.Spec>): seq<SourceRecord> {
    if specs == [] then [] else
    var t := Take(n, blobs, specs[|specs| - 1]);
    Sources(n, blobs, specs[..|specs| - 1]) + (if t.Admitted? then [t.source] else [])
  }

  function Unavailables(n: Names, blobs: W.Blobs, specs: seq<W.Spec>): seq<string> {
    if specs == [] then [] else
    var t := Take(n, blobs, specs[|specs| - 1]);
    Unavailables(n, blobs, specs[..|specs| - 1]) + (if t.Unavailable? then [t.obstruction] else [])
  }

  /** `payloads[id] = record`, spec by spec. */
  function Payloads(n: Names, blobs: W.Blobs, specs: seq<W.Spec>): map<string, Payload> {
    if specs == [] then map[] else
    var t := Take(n, blobs, specs[|specs| - 1]);
    var front := Payloads(n, blobs, specs[..|specs| - 1]);
    if t.Admitted? then front[t.payload.id := t.payload] else front
  }

  predicate SourceLe(a: SourceRecord, b: SourceRecord) { TextLe(a.id, b.id) }
  predicate LossLe(a: Loss, b: Loss) { TextLe(a.id, b.id) }

  function SourceIdOf(s: SourceRecord): string { s.id }
  function LossIdOf(l: Loss): string { l.id }
  function PayloadIdOf(p: Payload): string { p.id }
  function BodyOf(s: W.Spec): W.Window { s.body }

  /** The keys of a dict, sorted. */
  function SortedKeys(ids: seq<string>): seq<string> { Sort(Firsts(ids, Same), TextLe) }

  function Same(s: string): string { s }

  function PayloadIds(sources: seq<SourceRecord>): seq<string> { Map(sources, PayloadKey) }

  function PayloadKey(s: SourceRecord): string { s.body.payload }

  /** The payload dict's values by id: its keys are the payload ids of the sources admitted. */
  function PayloadRows(m: map<string, Payload>, sources: seq<SourceRecord>): seq<Payload> {
    var ids := SortedKeys(PayloadIds(sources));
    seq(|ids|, i requires 0 <= i < |ids| => if ids[i] in m then m[ids[i]] else Payload(ids[i], 0, "", []))
  }

  function Unresolved(n: Names, blobs: W.Blobs, refs: seq<F.Reference>): seq<string> {
    if refs == [] then [] else
    var r := refs[|refs| - 1];
    Unresolved(n, blobs, refs[..|refs| - 1]) + (if Available(blobs, r) then [] else [n.unresolved(r)])
  }

  predicate Available(blobs: W.Blobs, r: F.Reference) { blobs(if r.side == "base" then W.Base else W.Head, r.path, r.blob).Some? }

  /** The obstructions under each registry key. */
  function StatusOf(key: string, unavailable: seq<string>, unresolved: seq<string>, projection: Projected): seq<string> {
    if key == SOURCE_ENTRY.key then unavailable
    else if key == REFERENCE_ENTRY.key then unresolved
    else if projection.canonical != projection.computed then [projection.obstruction] else []
  }

  function LossBodyOf(n: Names, e: Entry, task: string, support: seq<string>): LossBody {
    TaskLoss(e.reason, e.scope, n.recovery(task, e.key, support), n.question(task, e.key), support)
  }

  /** `_loss`, the declared part. */
  function LossOf(n: Names, e: Entry, task: string, support: seq<string>): Loss {
    var body := LossBodyOf(n, e, task, support);
    Loss(n.loss(body), e.reason, e.scope, body.recovery, false, Some(body.question))
  }

  function HiddenOf(n: Names, e: Entry, task: string, support: seq<string>): HiddenLoss {
    HiddenLoss(n.loss(LossBodyOf(n, e, task, support)), task, e.key, n.question(task, e.key), support)
  }

  /** `_routine`. */
  function RoutineOf(n: Names, task: string, arm: string, scope: string): Loss {
    var recovery := n.routineRecovery(task, arm, scope);
    Loss(n.loss(RoutineLoss(recovery)), ROUTINE, "bounded_context", recovery, false, None)
  }

  /** What one arm could not read. */
  datatype Missing = Missing(unavailable: seq<string>, unresolved: seq<string>, projection: Projected)

  function Support(m: Missing, key: string): seq<string> { Sort(StatusOf(key, m.unavailable, m.unresolved, m.projection), TextLe) }

  function LossesFor(n: Names, entries: seq<Entry>, task: string, m: Missing): seq<Loss> {
    if entries == [] then [] else
    var e := entries[|entries| - 1];
    LossesFor(n, entries[..|entries| - 1], task, m) + (if Support(m, e.key) == [] then [] else [LossOf(n, e, task, Support(m, e.key))])
  }

  function HiddenFor(n: Names, entries: seq<Entry>, task: string, m: Missing): seq<HiddenLoss> {
    if entries == [] then [] else
    var e := entries[|entries| - 1];
    HiddenFor(n, entries[..|entries| - 1], task, m) + (if Support(m, e.key) == [] then [] else [HiddenOf(n, e, task, Support(m, e.key))])
  }

  function MissingOf(n: Names, blobs: W.Blobs, specs: seq<W.Spec>, refs: seq<F.Reference>, projection: Projected): Missing {
    Missing(Unavailables(n, blobs, specs), Unresolved(n, blobs, refs), projection)
  }

  /** `_arm`. */
  function ArmOf(n: Names, blobs: W.Blobs, specs: seq<W.Spec>, refs: seq<F.Reference>, projection: Projected, task: string, id: string, scope: string): Result<Arm, ArmError> {
    if !Distinct(Map(specs, BodyOf)) then Failure(DuplicateInternalSource) else
    var m := MissingOf(n, blobs, specs, refs, projection);
    var sources := Sources(n, blobs, specs);
    Success(Arm(id, Sort(sources, SourceLe), PayloadRows(Payloads(n, blobs, specs), sources), LossesFor(n, REGISTRY, task, m),
                HiddenFor(n, REGISTRY, task, m), RoutineOf(n, task, id, scope)))
  }

  /** The spec loop of `_arm`: sources, payloads and obstructions, up to a repeated spec. */
  method TakeSpecs(n: Names, blobs: W.Blobs, specs: seq<W.Spec>)
    returns (ok: bool, sources: seq<SourceRecord>, payloads: map<string, Payload>, unavailable: seq<string>)
    ensures ok <==> Distinct(Map(specs, BodyOf))
    ensures ok ==> sources == Sources(n, blobs, specs) && payloads == Payloads(n, blobs, specs) && unavailable == Unavailables(n, blobs, specs)
  {
    sources, payloads, unavailable := [], map[], [];
    var seen: set<W.Window> := {};
    for i := 0 to |specs|
      invariant Seen(specs[..i], seen)
      invariant sources == Sources(n, blobs, specs[..i]) && payloads == Payloads(n, blobs, specs[..i])
      invariant unavailable == Unavailables(n, blobs, specs[..i])
    {
      SeenStep(specs, i, seen);
      if specs[i].body in seen { return false, [], map[], []; }
      seen := seen + {specs[i].body};
      var taken := Take(n, blobs, specs[i]);
      assert specs[..i + 1][..i] == specs[..i];
      match taken {
        case Unavailable(id) => unavailable := unavailable + [id];
        case Admitted(source, payload) => sources, payloads := sources + [source], payloads[payload.id := payload];
      }
    }
    assert specs[..|specs|] == specs;
    return true, sources, payloads, unavailable;
  }

  ghost predicate Seen(done: seq<W.Spec>, seen: set<W.Window>) {
    Distinct(Map(done, BodyOf)) && forall w :: w in seen <==> w in Map(done, BodyOf)
  }

  lemma SeenStep(specs: seq<W.Spec>, i: nat, seen: set<W.Window>)
    requires i < |specs| && Seen(specs[..i], seen)
    ensures specs[i].body !in seen ==> Seen(specs[..i + 1], seen + {specs[i].body})
    ensures specs[i].body in seen ==> !Distinct(Map(specs, BodyOf))
  {
    var before, after, all := Map(specs[..i], BodyOf), Map(specs[..i + 1], BodyOf), Map(specs, BodyOf);
    assert after == before + [specs[i].body];
    if specs[i].body in seen {
      var j :| 0 <= j < i && before[j] == specs[i].body;
      assert all[j] == all[i];
    } else {
      assert forall j :: 0 <= j < i ==> before[j] in before;
    }
  }

  /** The registry loop of `_arm`. */
  method DeclareLosses(n: Names, task: string, m: Missing) returns (losses: seq<Loss>, hidden: seq<HiddenLoss>)
    ensures losses == LossesFor(n, REGISTRY, task, m) && hidden == HiddenFor(n, REGISTRY, task, m)
  {
    losses, hidden := [], [];
    for i := 0 to |REGISTRY|
      invariant losses == LossesFor(n, REGISTRY[..i], task, m) && hidden == HiddenFor(n, REGISTRY[..i], task, m)
    {
      var e := REGISTRY[i];
      assert REGISTRY[..i + 1][..i] == REGISTRY[..i];
      var ids := Support(m, e.key);
      if ids != [] {
        losses, hidden := losses + [LossOf(n, e, task, ids)], hidden + [HiddenOf(n, e, task, ids)];
      }
    }
    assert REGISTRY[..|REGISTRY|] == REGISTRY;
  }

  method BuildArm(n: Names, blobs: W.Blobs, specs: seq<W.Spec>, refs: seq<F.Reference>, projection: Projected, task: string, id: string, scope: string)
    returns (r: Result<Arm, ArmError>)
    ensures r == ArmOf(n, blobs, specs, refs, projection, task, id, scope)
  {
    var ok, sources, payloads, unavailable := TakeSpecs(n, blobs, specs);
    if !ok { return Failure(DuplicateInternalSource); }
    var unresolved: seq<string> := [];
    for i := 0 to |refs|
      invariant unresolved == Unresolved(n, blobs, refs[..i])
    {
      assert refs[..i + 1][..i] == refs[..i];
      if !Available(blobs, refs[i]) { unresolved := unresolved + [n.unresolved(refs[i])]; }
    }
    assert refs[..|refs|] == refs;
    var losses, hidden := DeclareLosses(n, task, Missing(unavailable, unresolved, projection));
    return Success(Arm(id, Sort(sources, SourceLe), PayloadRows(payloads, sources), losses, hidden, RoutineOf(n, task, id, scope)));
  }
}
