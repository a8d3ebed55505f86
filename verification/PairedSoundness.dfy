/** Packets of the arms of a plan: their ids are in order and apart, their payloads close, and the bytes
    an auditor adds up from them are the bytes the planner admitted. */
module PairedSoundness {
  import opened Wrappers
  import opened Ordering
  import opened Grouping
  import opened PairedArms
  import opened PairedPackets
  import P = SourcePayload
  import W = WindowAlgebra
  import WT = WindowTheorems
  import WB = WindowBytes
  import F = FrozenObligation

  // ---- Plan rows have their own spans ------------------------------------------------------------------------

  predicate SameSpot(a: W.Window, b: W.Window) { a.Of() == b.Of() && W.SameSpan(a, b) }

  ghost predicate SpotsApart(specs: seq<W.Spec>) {
    forall i, j :: 0 <= i < j < |specs| ==> !SameSpot(specs[i].body, specs[j].body)
  }

  lemma NormalFormSpots(bytes: W.Measure, rows: seq<W.Spec>, x: W.Spec, y: W.Spec)
    requires WT.NormalForm(bytes, rows) && x in rows && y in rows && W.SameSpan(x.body, y.body)
    ensures x == y && multiset(rows)[x] == 1
  {
    var i :| 0 <= i < |rows| && rows[i] == x;
    var j :| 0 <= j < |rows| && rows[j] == y;
    assert i == j;
    assert Distinct(rows);
    DistinctIsCountOne(rows);
  }

  /** A plan never repeats a span of a source, so `_arm` never meets a duplicate. */
  lemma PlanSpotsApart(bytes: W.Measure, names: W.Naming, specs: seq<W.Spec>)
    requires WT.Monotone(bytes) && WT.ValidSpans(specs) && W.Union(bytes, names, specs).Success?
    ensures SpotsApart(W.Union(bytes, names, specs).value)
    ensures Distinct(Map(W.Union(bytes, names, specs).value, BodyOf))
  {
    var out := W.Union(bytes, names, specs).value;
    forall i, j | 0 <= i < j < |out| ensures !SameSpot(out[i].body, out[j].body) {
      var k := out[i].body.Of();
      WT.GroupOfPlan(bytes, names, names, specs, k);
      if SameSpot(out[i].body, out[j].body) {
        var rows := W.Rows(out, k);
        assert out[i] in out && out[j] in out;
        NormalFormSpots(bytes, rows, out[i], out[j]);
        W.RowsCount(out, out[i]);
        TwiceIn(out, i, j);
      }
    }
  }

  lemma TwiceIn<T>(s: seq<T>, i: nat, j: nat)
    requires i < j < |s| && s[i] == s[j]
    ensures multiset(s)[s[i]] >= 2
  {
    RemoveAt(s, j);
    var rest := s[..j] + s[j + 1..];
    assert rest[i] == s[i];
    assert rest[i] in multiset(rest);
  }

  // ---- Sources ------------------------------------------------------------------------------------------------

  /** The source record came from the spec. */
  predicate CameFrom(s: SourceRecord, spec: W.Spec) {
    s.body.role == spec.body.role && s.body.side == spec.body.side && s.body.path == spec.body.path &&
    s.body.start == spec.body.start && s.body.end == spec.body.end
  }

  lemma {:induction false} SourcesComeFrom(n: Names, blobs: W.Blobs, specs: seq<W.Spec>, s: SourceRecord)
    requires s in Sources(n, blobs, specs)
    ensures s.id == n.source(s.body) && exists spec :: spec in specs && CameFrom(s, spec)
  {
    var k := |specs| - 1;
    if s in Sources(n, blobs, specs[..k]) {
      SourcesComeFrom(n, blobs, specs[..k], s);
      var spec :| spec in specs[..k] && CameFrom(s, spec);
      assert spec in specs;
    } else {
      assert specs[k] in specs && CameFrom(s, specs[k]);
    }
  }

  lemma {:induction false} SourceIdsApart(n: Names, blobs: W.Blobs, specs: seq<W.Spec>)
    requires IdsApart(n) && SpotsApart(specs)
    ensures Distinct(Map(Sources(n, blobs, specs), SourceIdOf))
  {
    if specs != [] {
      var k := |specs| - 1;
      var front, t := Sources(n, blobs, specs[..k]), Take(n, blobs, specs[k]);
      SourceIdsApart(n, blobs, specs[..k]);
      if t.Admitted? {
        var ids := Map(front, SourceIdOf);
        assert Map(front + [t.source], SourceIdOf) == ids + [t.source.id];
        forall i | 0 <= i < |front| ensures front[i].id != t.source.id {
          SourcesComeFrom(n, blobs, specs[..k], front[i]);
          var spec :| spec in specs[..k] && CameFrom(front[i], spec);
          var j :| 0 <= j < k && specs[..k][j] == spec;
          assert !SameSpot(specs[j].body, specs[k].body);
        }
      }
    }
  }

  lemma SortedMapOrdered<T(!new)>(rows: seq<T>, le: (T, T) -> bool, id: T -> string)
    requires TotalPreorder(le) && Distinct(Map(rows, id)) && forall a, b :: le(a, b) == TextLe(id(a), id(b))
    ensures IdOrdered(Map(Sort(rows, le), id))
  {
    var sorted := Sort(rows, le);
    SortSpec(rows, le);
    MapIgnoresOrder(sorted, rows, id);
    DistinctIgnoresOrder(Map(sorted, id), Map(rows, id));
    TextLeIsTotalPreorder();
    forall i, j | 0 <= i < j < |sorted| ensures TextLe(Map(sorted, id)[i], Map(sorted, id)[j]) {
      assert le(sorted[i], sorted[j]);
    }
    SortFixesSorted(Map(sorted, id), TextLe);
  }

  // ---- Losses ---------------------------------------------------------------------------------------------------

  /** The loss is named after a task loss body of its own reason. */
  ghost predicate NamedLoss(n: Names, l: Loss) {
    l.reason != ROUTINE && exists b: LossBody :: b.TaskLoss? && b.reason == l.reason && l.id == n.loss(b)
  }

  /** Task losses name their own bodies, with reasons of the registry. */
  ghost predicate LossesNamed(n: Names, losses: seq<Loss>) {
    && (forall l :: l in losses ==> NamedLoss(n, l))
    && (forall i, j :: 0 <= i < j < |losses| ==> losses[i].reason != losses[j].reason)
  }

  lemma EntryNamesLoss(n: Names, e: Entry, task: string, support: seq<string>)
    requires e.reason != ROUTINE
    ensures NamedLoss(n, LossOf(n, e, task, support)) && LossOf(n, e, task, support).reason == e.reason
  {
    assert LossBodyOf(n, e, task, support).TaskLoss?;
  }

  lemma ThreeNamed(n: Names, a: seq<Loss>, b: seq<Loss>, c: seq<Loss>, x: Loss, y: Loss, z: Loss)
    requires (a == [] || a == [x]) && (b == [] || b == [y]) && (c == [] || c == [z])
    requires NamedLoss(n, x) && NamedLoss(n, y) && NamedLoss(n, z) && x.reason != y.reason && y.reason != z.reason && x.reason != z.reason
    ensures LossesNamed(n, a + b + c)
  {
  }

  lemma RegistryLossesNamed(n: Names, task: string, m: Missing)
    ensures LossesNamed(n, LossesFor(n, REGISTRY, task, m))
  {
    var unavailable, unresolved, projected := Sort(m.unavailable, TextLe), Sort(m.unresolved, TextLe), [m.projection.obstruction];
    var x, y, z := LossOf(n, SOURCE_ENTRY, task, unavailable), LossOf(n, REFERENCE_ENTRY, task, unresolved), LossOf(n, PROJECTION_ENTRY, task, projected);
    RegistryLosses(n, task, m);
    EntryNamesLoss(n, SOURCE_ENTRY, task, unavailable);
    EntryNamesLoss(n, REFERENCE_ENTRY, task, unresolved);
    EntryNamesLoss(n, PROJECTION_ENTRY, task, projected);
    ThreeNamed(n, if m.unavailable == [] then [] else [x], if m.unresolved == [] then [] else [y],
               if m.projection.canonical == m.projection.computed then [] else [z], x, y, z);
  }

  lemma LossIdsApart(n: Names, losses: seq<Loss>, routine: Loss, recovery: string)
    requires IdsApart(n) && LossesNamed(n, losses) && routine.id == n.loss(RoutineLoss(recovery))
    ensures Distinct(Map([routine] + losses, LossIdOf))
  {
    var all := [routine] + losses;
    forall i, j | 0 <= i < j < |all| ensures all[i].id != all[j].id {
      assert all[j] == losses[j - 1] && losses[j - 1] in losses;
      var b: LossBody :| b.TaskLoss? && b.reason == all[j].reason && all[j].id == n.loss(b);
      if i > 0 {
        assert all[i] == losses[i - 1] && losses[i - 1] in losses;
        var c: LossBody :| c.TaskLoss? && c.reason == all[i].reason && all[i].id == n.loss(c);
      }
    }
  }

  lemma FlagsKeepIds(routine: Loss, losses: seq<Loss>, comparable: bool)
    ensures Map([routine] + Map(losses, Flagged(comparable)), LossIdOf) == Map([routine] + losses, LossIdOf)
  {}

  // ---- Payloads ----------------------------------------------------------------------------------------------------

  ghost predicate PayloadsKeyed(n: Names, m: map<string, Payload>) {
    forall k :: k in m ==> m[k].id == k && m[k] == PayloadOf(n, m[k].text) && |m[k].text| >= 1
  }

  /** The source describes some excerpt's bytes. */
  ghost predicate Describes(n: Names, s: SourceRecord, bytes: seq<P.Byte>) {
    s.body.payload == PayloadOf(n, bytes).id && s.body.bytes == |bytes| && s.body.sha == n.sha(bytes)
  }

  function PayloadKeys(sources: seq<SourceRecord>): set<string> { set s | s in sources :: s.body.payload }

  lemma TakenIsNotEmpty(n: Names, blobs: W.Blobs, s: W.Spec)
    requires Take(n, blobs, s).Admitted?
    ensures var t := Take(n, blobs, s);
            && t.payload == PayloadOf(n, t.payload.text) && |t.payload.text| >= 1 && t.source.body.payload == t.payload.id
            && Describes(n, t.source, t.payload.text) && 1 <= t.source.body.start <= t.source.body.end
  {
    ExcerptsAreNotEmpty(blobs, s.body);
  }

  lemma {:induction false} PayloadsAreKeyed(n: Names, blobs: W.Blobs, specs: seq<W.Spec>)
    ensures PayloadsKeyed(n, Payloads(n, blobs, specs))
    ensures Payloads(n, blobs, specs).Keys == PayloadKeys(Sources(n, blobs, specs))
  {
    if specs != [] {
      var k := |specs| - 1;
      var front, t := Sources(n, blobs, specs[..k]), Take(n, blobs, specs[k]);
      PayloadsAreKeyed(n, blobs, specs[..k]);
      if t.Admitted? {
        TakenIsNotEmpty(n, blobs, specs[k]);
        assert PayloadKeys(front + [t.source]) == PayloadKeys(front) + {t.payload.id};
      }
    }
  }

  lemma {:induction false} SourcesDescribe(n: Names, blobs: W.Blobs, specs: seq<W.Spec>, s: SourceRecord)
    requires s in Sources(n, blobs, specs)
    ensures s.id == n.source(s.body) && 1 <= s.body.start <= s.body.end && exists bytes :: Describes(n, s, bytes)
  {
    var k := |specs| - 1;
    if s in Sources(n, blobs, specs[..k]) {
      SourcesDescribe(n, blobs, specs[..k], s);
    } else {
      TakenIsNotEmpty(n, blobs, specs[k]);
    }
  }

  lemma ExcerptsAreNotEmpty(blobs: W.Blobs, w: W.Window)
    requires Read(blobs, w).Success?
    ensures |Read(blobs, w).value| >= 1 && 1 <= w.start <= w.end
  {
    var file := blobs(w.side, w.path, w.blob).value;
    var lines := P.Lines(file);
    LinesAreNotEmpty(file);
    assert lines[w.start - 1..w.end][0] == lines[w.start - 1];
  }

  lemma {:induction false} LinesAreNotEmpty(f: seq<P.Byte>)
    ensures forall i :: 0 <= i < |P.Lines(f)| ==> P.Lines(f)[i] != []
    decreases |f|
  {
    if f != [] { LinesAreNotEmpty(f[P.LineEnd(f, 0)..]); }
  }

  // ---- Bytes -----------------------------------------------------------------------------------------------------

  lemma TakenBytes(n: Names, blobs: W.Blobs, s: W.Spec)
    ensures WB.Bytes(WT.Measured(blobs), s.body) == if Take(n, blobs, s).Admitted? then Take(n, blobs, s).source.body.bytes else 0
  {
    assert WT.Measured(blobs)(s.body) == W.ByteLength(blobs, s.body);
  }

  lemma {:induction false} SourceBytesAddUp(n: Names, blobs: W.Blobs, specs: seq<W.Spec>)
    ensures Sum(Map(Sources(n, blobs, specs), BytesOf)) == WB.TotalBytes(WT.Measured(blobs), specs)
  {
    if specs != [] {
      var k := |specs| - 1;
      var front, t := Sources(n, blobs, specs[..k]), Take(n, blobs, specs[k]);
      SourceBytesAddUp(n, blobs, specs[..k]);
      TakenBytes(n, blobs, specs[k]);
      var bytes := WT.Measured(blobs);
      assert WB.TotalBytes(bytes, specs) == WB.TotalBytes(bytes, specs[..k]) + WB.Bytes(bytes, specs[k].body);
      if t.Admitted? {
        assert Sources(n, blobs, specs) == front + [t.source];
        assert Map(front + [t.source], BytesOf) == Map(front, BytesOf) + [t.source.body.bytes];
        SumSnoc(Map(front, BytesOf), t.source.body.bytes);
      } else {
        assert Sources(n, blobs, specs) == front;
      }
    }
  }

  /** The payload rows of an arm: by id, each once, and the dict read back. */
  lemma RowsReadBack(n: Names, m: map<string, Payload>, sources: seq<SourceRecord>)
    requires PayloadsKeyed(n, m) && m.Keys == PayloadKeys(sources)
    ensures IdOrdered(Map(PayloadRows(m, sources), PayloadIdOf)) && ByPayloadId(PayloadRows(m, sources)) == m
    ensures PayloadsSound(n, PayloadRows(m, sources))
  {
    var first := Firsts(PayloadIds(sources), PairedArms.Same);
    var ids, rows := SortedKeys(PayloadIds(sources)), PayloadRows(m, sources);
    FirstsSpec(PayloadIds(sources), PairedArms.Same);
    MapMembers(sources, PayloadKey);
    TextLeIsTotalPreorder();
    SortSpec(first, TextLe);
    SortMembers(first, TextLe);
    DistinctIgnoresOrder(ids, first);
    SortFixesSorted(ids, TextLe);
    forall k ensures k in ids <==> k in m {
      KeyOfSource(sources, k);
    }
    forall i | 0 <= i < |ids| ensures rows[i] == m[ids[i]] && PayloadSound(n, rows[i]) {
      assert ids[i] in ids;
    }
    assert Map(rows, PayloadIdOf) == ids;
    ReadBack(m, rows, ids);
  }

  lemma KeyOfSource(sources: seq<SourceRecord>, k: string)
    ensures k in SortedKeys(PayloadIds(sources)) <==> k in PayloadKeys(sources)
  {
    var ids := PayloadIds(sources);
    FirstsSpec(ids, PairedArms.Same);
    MapMembers(sources, PayloadKey);
    TextLeIsTotalPreorder();
    SortMembers(Firsts(ids, PairedArms.Same), TextLe);
    if k in PayloadKeys(sources) {
      var s :| s in sources && s.body.payload == k;
      MapHolds(sources, PayloadKey, s);
      assert PairedArms.Same(k) in Firsts(ids, PairedArms.Same);
    }
    if k in SortedKeys(ids) {
      var x :| x in ids && PairedArms.Same(x) == k;
      var s :| s in sources && PayloadKey(s) == x;
    }
  }

  lemma ReadBack(m: map<string, Payload>, rows: seq<Payload>, ids: seq<string>)
    requires |rows| == |ids| && Distinct(ids) && (forall k :: k in ids <==> k in m)
    requires forall i :: 0 <= i < |ids| ==> ids[i] in m && rows[i] == m[ids[i]] && rows[i].id == ids[i]
    ensures ByPayloadId(rows) == m
  {
    ByIdHolds(rows);
    var b := ByPayloadId(rows);
    forall k ensures k in b <==> k in m {
      if k in m { var i :| 0 <= i < |ids| && ids[i] == k; assert rows[i] in rows; }
      if k in b { var i :| 0 <= i < |rows| && rows[i] == b[k]; }
    }
    forall k | k in b ensures b[k] == m[k] {
      var i :| 0 <= i < |rows| && rows[i] == b[k];
    }
  }

  lemma {:induction false} ByIdHolds(rows: seq<Payload>)
    ensures forall x :: x in rows ==> x.id in ByPayloadId(rows)
    ensures forall k :: k in ByPayloadId(rows) ==> ByPayloadId(rows)[k] in rows && ByPayloadId(rows)[k].id == k
  {
    if rows != [] {
      var k := |rows| - 1;
      ByIdHolds(rows[..k]);
      assert rows == rows[..k] + [rows[k]];
    }
  }

  /** Distinct payload identities have distinct ids. */
  ghost predicate PayloadIdsApart(n: Names) {
    forall s, l, s', l' :: n.payload(s, l) == n.payload(s', l') ==> s == s' && l == l'
  }

  lemma SourceIsSound(n: Names, blobs: W.Blobs, specs: seq<W.Spec>, s: SourceRecord)
    requires PayloadIdsApart(n) && s in Sources(n, blobs, specs)
    ensures SourceSound(n, s, Payloads(n, blobs, specs))
  {
    var m := Payloads(n, blobs, specs);
    PayloadsAreKeyed(n, blobs, specs);
    SourcesDescribe(n, blobs, specs, s);
    var bytes :| Describes(n, s, bytes);
    assert s.body.payload in PayloadKeys(Sources(n, blobs, specs));
    assert m[s.body.payload] == PayloadOf(n, m[s.body.payload].text);
  }

  // ---- Main results -----------------------------------------------------------------------------------------------

  /** The auditor's byte count of an arm's packet is the planner's. */
  lemma PacketBytesAreAdmitted(n: Names, blobs: W.Blobs, specs: seq<W.Spec>, refs: seq<F.Reference>, projection: Projected, task: string, id: string,
                               scope: string, a: Arm, comparable: bool)
    requires Made(n, blobs, specs, refs, projection, task, id, scope, a)
    ensures PacketBytes(PacketOf(n, WithFlags(a, comparable), task)) == WB.TotalBytes(WT.Measured(blobs), specs)
  {
    var sources := Sources(n, blobs, specs);
    LossLeIsTotal();
    SortSpec(sources, SourceLe);
    MapIgnoresOrder(Sort(sources, SourceLe), sources, BytesOf);
    SumIgnoresOrder(Map(Sort(sources, SourceLe), BytesOf), Map(sources, BytesOf));
    SourceBytesAddUp(n, blobs, specs);
  }

  lemma SourcesOrdered(n: Names, blobs: W.Blobs, specs: seq<W.Spec>)
    requires IdsApart(n) && SpotsApart(specs)
    ensures IdOrdered(Map(Sort(Sources(n, blobs, specs), SourceLe), SourceIdOf))
  {
    SourceIdsApart(n, blobs, specs);
    LossLeIsTotal();
    SortedMapOrdered(Sources(n, blobs, specs), SourceLe, SourceIdOf);
  }

  lemma LossesOrdered(n: Names, task: string, m: Missing, id: string, scope: string, comparable: bool)
    requires IdsApart(n)
    ensures IdOrdered(Map(Sort([RoutineOf(n, task, id, scope)] + Map(LossesFor(n, REGISTRY, task, m), Flagged(comparable)), LossLe), LossIdOf))
  {
    var routine, losses := RoutineOf(n, task, id, scope), LossesFor(n, REGISTRY, task, m);
    RegistryLossesNamed(n, task, m);
    LossIdsApart(n, losses, routine, n.routineRecovery(task, id, scope));
    FlagsKeepIds(routine, losses, comparable);
    LossLeIsTotal();
    SortedMapOrdered([routine] + Map(losses, Flagged(comparable)), LossLe, LossIdOf);
  }

  lemma PayloadsClose(n: Names, blobs: W.Blobs, specs: seq<W.Spec>, p: Packet)
    requires PayloadIdsApart(n)
    requires p.payloads == PayloadRows(Payloads(n, blobs, specs), Sources(n, blobs, specs))
    requires p.inventory.sources == Sort(Sources(n, blobs, specs), SourceLe)
    ensures Closed(n, p) && IdOrdered(Map(p.payloads, PayloadIdOf))
  {
    var sources, m := Sources(n, blobs, specs), Payloads(n, blobs, specs);
    PayloadsAreKeyed(n, blobs, specs);
    RowsReadBack(n, m, sources);
    LossLeIsTotal();
    SortMembers(sources, SourceLe);
    forall s | s in p.inventory.sources ensures SourceSound(n, s, m) { SourceIsSound(n, blobs, specs, s); }
    assert PayloadKeys(p.inventory.sources) == PayloadKeys(sources);
  }

  /** The packet of an arm over a plan passes the packet audit: nothing repeats, everything is in id
      order, and payloads and sources name each other exactly. */
  lemma ArmPacketIsSound(n: Names, blobs: W.Blobs, specs: seq<W.Spec>, refs: seq<F.Reference>, projection: Projected, task: string, id: string,
                         scope: string, a: Arm, comparable: bool)
    requires IdsApart(n) && PayloadIdsApart(n) && SpotsApart(specs)
    requires Made(n, blobs, specs, refs, projection, task, id, scope, a)
    ensures PacketSound(n, PacketOf(n, WithFlags(a, comparable), task))
  {
    var m := MissingOf(n, blobs, specs, refs, projection);
    SourcesOrdered(n, blobs, specs);
    LossesOrdered(n, task, m, id, scope, comparable);
    PayloadsClose(n, blobs, specs, PacketOf(n, WithFlags(a, comparable), task));
  }
}
