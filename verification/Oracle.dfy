/** The realized-fix oracle's set algebra (m21 evaluator/oracle.py). */
module Oracle {
  import opened Wrappers
  import opened Grouping
  import opened Ordering

  /** A changed hunk: old and new paths, starts and counts. */
  datatype Hunk = Hunk(oldPath: string, newPath: string, oldStart: int, oldCount: int, newStart: int, newCount: int)

  /** An accepted definition with the name its symbol has in that tree. */
  datatype Definition = Definition(id: string, name: string, path: string, start: int, end: int)

  datatype Relation = Relation(callerPath: string, callerStart: int, callerEnd: int, calleeId: string)

  /** Identifiers added on one changed line. */
  datatype Added = Added(path: string, line: int, tokens: set<string>)

  datatype Key = Key(kind: string, path: string, name: string)

  datatype OracleError =
    | RenameMappingAmbiguous
    | StableDefinitionKeyAmbiguous
    | ReferenceBindingAmbiguous
    | AcceptedFactClosureIncomplete

  /** Accepted definitions are keyed by symbol id. */
  predicate DistinctIds(ds: seq<Definition>) {
    forall i, j :: 0 <= i < j < |ds| ==> ds[i].id != ds[j].id
  }

  function IdsOf(ds: seq<Definition>): set<string> { set d | d in ds :: d.id }

  // ---- Renames -------------------------------------------------------------------------------

  predicate OneToOne(hunks: seq<Hunk>) {
    forall g, h :: g in hunks && h in hunks ==> (g.oldPath == h.oldPath <==> g.newPath == h.newPath)
  }

  ghost predicate Renames(hunks: seq<Hunk>, m: map<string, string>) {
    && (forall h :: h in hunks ==> h.oldPath in m && m[h.oldPath] == h.newPath)
    && (forall p :: p in m ==> exists h :: h in hunks && h.oldPath == p)
  }

  ghost predicate Backwards(hunks: seq<Hunk>, m: map<string, string>) {
    && (forall h :: h in hunks ==> h.newPath in m && m[h.newPath] == h.oldPath)
    && (forall p :: p in m ==> exists h :: h in hunks && h.newPath == p)
  }

  ghost predicate Paired(hunks: seq<Hunk>, forth: map<string, string>, back: map<string, string>) {
    Renames(hunks, forth) && Backwards(hunks, back)
  }

  predicate Agrees(m: map<string, string>, key: string, value: string) { key in m ==> m[key] == value }

  lemma PairedStep(done: seq<Hunk>, h: Hunk, forth: map<string, string>, back: map<string, string>)
    requires Paired(done, forth, back) && Agrees(forth, h.oldPath, h.newPath) && Agrees(back, h.newPath, h.oldPath)
    ensures Paired(done + [h], forth[h.oldPath := h.newPath], back[h.newPath := h.oldPath])
  {
    var next, m, w := done + [h], forth[h.oldPath := h.newPath], back[h.newPath := h.oldPath];
    assert h in next;
    forall p | p in m ensures exists g :: g in next && g.oldPath == p {
      if p != h.oldPath {
        var g :| g in done && g.oldPath == p;
        assert g in next;
      }
    }
    forall p | p in w ensures exists g :: g in next && g.newPath == p {
      if p != h.newPath {
        var g :| g in done && g.newPath == p;
        assert g in next;
      }
    }
  }

  lemma PairedConflict(hunks: seq<Hunk>, i: nat, forth: map<string, string>, back: map<string, string>)
    requires i < |hunks| && Paired(hunks[..i], forth, back)
    requires !Agrees(forth, hunks[i].oldPath, hunks[i].newPath) || !Agrees(back, hunks[i].newPath, hunks[i].oldPath)
    ensures !OneToOne(hunks)
  {
    var h := hunks[i];
    assert h in hunks;
    if !Agrees(forth, h.oldPath, h.newPath) {
      var g :| g in hunks[..i] && g.oldPath == h.oldPath;
      assert g in hunks;
    } else {
      var g :| g in hunks[..i] && g.newPath == h.newPath;
      assert g in hunks;
    }
  }

  lemma PairedIsOneToOne(hunks: seq<Hunk>, forth: map<string, string>, back: map<string, string>)
    requires Paired(hunks, forth, back)
    ensures OneToOne(hunks) && Injective(forth)
  {
    forall p, q | p in forth && q in forth && forth[p] == forth[q] ensures p == q {
      var g :| g in hunks && g.oldPath == p;
      var h :| h in hunks && h.oldPath == q;
      assert back[g.newPath] == p && back[h.newPath] == q;
    }
  }

  /** `dict.setdefault`: the prior value, or the new one. */
  function SetDefault(m: map<string, string>, key: string, value: string): string { if key in m then m[key] else value }

  /** One hunk of `_rename_paths`: whether both of its paths agree with what is there. */
  method TakeHunk(hunks: seq<Hunk>, i: nat, forth: map<string, string>, back: map<string, string>) returns (ok: bool)
    requires i < |hunks| && Paired(hunks[..i], forth, back)
    ensures ok ==> Paired(hunks[..i + 1], forth[hunks[i].oldPath := hunks[i].newPath], back[hunks[i].newPath := hunks[i].oldPath])
    ensures !ok ==> !OneToOne(hunks)
  {
    var h := hunks[i];
    var priorNew, priorOld := SetDefault(forth, h.oldPath, h.newPath), SetDefault(back, h.newPath, h.oldPath);
    if priorNew != h.newPath || priorOld != h.oldPath {
      PairedConflict(hunks, i, forth, back);
      return false;
    }
    PairedStep(hunks[..i], h, forth, back);
    assert hunks[..i] + [h] == hunks[..i + 1];
    return true;
  }

  /** `_rename_paths`: the mapping exists exactly when old and new paths pair off one to one. */
  method RenamePaths(hunks: seq<Hunk>) returns (r: Result<map<string, string>, OracleError>)
    ensures r == Failure(RenameMappingAmbiguous) || r.Success?
    ensures r.Success? <==> OneToOne(hunks)
    ensures r.Success? ==> Renames(hunks, r.value) && Injective(r.value)
  {
    var oldToNew: map<string, string>, newToOld: map<string, string> := map[], map[];
    for i := 0 to |hunks|
      invariant Paired(hunks[..i], oldToNew, newToOld)
    {
      var ok := TakeHunk(hunks, i, oldToNew, newToOld);
      if !ok { return Failure(RenameMappingAmbiguous); }
      oldToNew, newToOld := oldToNew[hunks[i].oldPath := hunks[i].newPath], newToOld[hunks[i].newPath := hunks[i].oldPath];
    }
    assert hunks[..|hunks|] == hunks;
    PairedIsOneToOne(hunks, oldToNew, newToOld);
    return Success(oldToNew);
  }

  // ---- The stable index --------------------------------------------------------------------------

  function Find(s: string, c: char): (i: nat)
    ensures i <= |s|
  {
    if s == "" || s[0] == c then 0 else 1 + Find(s[1..], c)
  }

  /** `symbol_id.split(":", 1)[0]`. */
  function KindOf(id: string): string { id[..Find(id, ':')] }

  function KeyOf(d: Definition, renames: map<string, string>): Key {
    Key(KindOf(d.id), if d.path in renames then renames[d.path] else d.path, d.name)
  }

  type Keying = Definition -> Key

  /** The key of a definition once its path is normalised by the renames. */
  function KeyedUnder(renames: map<string, string>): Keying { (d: Definition) => KeyOf(d, renames) }

  predicate KeysApart(ds: seq<Definition>, key: Keying) {
    forall i, j :: 0 <= i < j < |ds| ==> key(ds[i]) != key(ds[j])
  }

  ghost predicate Indexes(ds: seq<Definition>, key: Keying, index: map<Key, string>) {
    && (forall d :: d in ds ==> key(d) in index && index[key(d)] == d.id)
    && (forall k :: k in index ==> exists d :: d in ds && key(d) == k && index[k] == d.id)
  }

  lemma KeyClashes(ds: seq<Definition>, key: Keying, index: map<Key, string>, i: nat)
    requires i < |ds| && Indexes(ds[..i], key, index) && key(ds[i]) in index
    ensures !KeysApart(ds, key)
  {
    var d :| d in ds[..i] && key(d) == key(ds[i]);
    var j :| 0 <= j < i && ds[..i][j] == d;
    assert key(ds[j]) == key(ds[i]);
  }

  lemma KeyIsNew(done: seq<Definition>, d: Definition, key: Keying, index: map<Key, string>)
    requires Indexes(done, key, index) && KeysApart(done, key) && key(d) !in index
    ensures KeysApart(done + [d], key) && Indexes(done + [d], key, index[key(d) := d.id])
  {
    assert forall i :: 0 <= i < |done| ==> done[i] in done;
    var ds, next := done + [d], index[key(d) := d.id];
    assert d in ds;
    forall k | k in next ensures exists x :: x in ds && key(x) == k && next[k] == x.id {
      if k != key(d) {
        var x :| x in done && key(x) == k && index[k] == x.id;
        assert x in ds;
      }
    }
  }

  lemma IndexedIdIsEarlier(ds: seq<Definition>, key: Keying, index: map<Key, string>, i: nat)
    requires DistinctIds(ds) && i < |ds| && Indexes(ds[..i], key, index) && key(ds[i]) in index
    ensures index[key(ds[i])] != ds[i].id
  {
    var d :| d in ds[..i] && key(d) == key(ds[i]) && index[key(ds[i])] == d.id;
    var j :| 0 <= j < i && ds[..i][j] == d;
    assert ds[j].id != ds[i].id;
  }

  /** `_stable_definition_index`: refused exactly when two definitions share a key. */
  method StableIndex(ds: seq<Definition>, key: Keying) returns (r: Result<map<Key, string>, OracleError>)
    requires DistinctIds(ds)
    ensures r == Failure(StableDefinitionKeyAmbiguous) || r.Success?
    ensures r.Success? <==> KeysApart(ds, key)
    ensures r.Success? ==> Indexes(ds, key, r.value)
  {
    var index: map<Key, string> := map[];
    for i := 0 to |ds|
      invariant Indexes(ds[..i], key, index) && KeysApart(ds[..i], key)
    {
      var k := key(ds[i]);
      if k in index && index[k] != ds[i].id {
        KeyClashes(ds, key, index, i);
        return Failure(StableDefinitionKeyAmbiguous);
      }
      if k in index { IndexedIdIsEarlier(ds, key, index, i); }
      KeyIsNew(ds[..i], ds[i], key, index);
      assert ds[..i + 1] == ds[..i] + [ds[i]];
      index := index[k := ds[i].id];
    }
    assert ds[..|ds|] == ds;
    return Success(index);
  }

  /** Target definition `d` and base definition `e` carry the map from `t` to `b`. */
  ghost predicate Carries(d: Definition, e: Definition, baseKey: Keying, fixKey: Keying, t: string, b: string) {
    d.id == t && e.id == b && fixKey(d) == baseKey(e)
  }

  ghost predicate Sound(base: seq<Definition>, fix: seq<Definition>, baseKey: Keying, fixKey: Keying, m: map<string, string>) {
    forall t :: t in m ==> exists d, e :: d in fix && e in base && Carries(d, e, baseKey, fixKey, t, m[t])
  }

  predicate Complete(base: seq<Definition>, fix: seq<Definition>, baseKey: Keying, fixKey: Keying, m: map<string, string>) {
    forall d, e :: d in fix && e in base && fixKey(d) == baseKey(e) ==> d.id in m && m[d.id] == e.id
  }

  /** The map takes a target symbol to a base symbol exactly when their definitions share a key. */
  ghost predicate Matches(base: seq<Definition>, fix: seq<Definition>, baseKey: Keying, fixKey: Keying, m: map<string, string>) {
    Sound(base, fix, baseKey, fixKey, m) && Complete(base, fix, baseKey, fixKey, m)
  }

  lemma MappedIsSound(done: seq<Definition>, d: Definition, base: seq<Definition>, baseKey: Keying, fixKey: Keying,
                      index: map<Key, string>, m: map<string, string>)
    requires Indexes(base, baseKey, index) && Sound(base, done, baseKey, fixKey, m) && fixKey(d) in index
    ensures Sound(base, done + [d], baseKey, fixKey, m[d.id := index[fixKey(d)]])
  {
    var fix, next := done + [d], m[d.id := index[fixKey(d)]];
    assert d in fix;
    forall t | t in next ensures exists x, e :: x in fix && e in base && Carries(x, e, baseKey, fixKey, t, next[t]) {
      if t == d.id {
        var e :| e in base && baseKey(e) == fixKey(d) && e.id == next[t];
        assert Carries(d, e, baseKey, fixKey, t, next[t]);
      } else {
        var x, e :| x in done && e in base && Carries(x, e, baseKey, fixKey, t, m[t]);
        assert x in fix && Carries(x, e, baseKey, fixKey, t, next[t]);
      }
    }
  }

  lemma MatchesMapped(done: seq<Definition>, d: Definition, base: seq<Definition>, baseKey: Keying, fixKey: Keying,
                      index: map<Key, string>, m: map<string, string>)
    requires Indexes(base, baseKey, index) && Matches(base, done, baseKey, fixKey, m)
    requires (forall x :: x in done ==> x.id != d.id) && fixKey(d) in index
    ensures Matches(base, done + [d], baseKey, fixKey, m[d.id := index[fixKey(d)]])
  {
    MappedIsSound(done, d, base, baseKey, fixKey, index, m);
  }

  lemma MatchesUnmapped(done: seq<Definition>, d: Definition, base: seq<Definition>, baseKey: Keying, fixKey: Keying,
                        index: map<Key, string>, m: map<string, string>)
    requires Indexes(base, baseKey, index) && Matches(base, done, baseKey, fixKey, m) && fixKey(d) !in index
    ensures Matches(base, done + [d], baseKey, fixKey, m)
  {
    var fix := done + [d];
    forall t | t in m ensures exists x, e :: x in fix && e in base && Carries(x, e, baseKey, fixKey, t, m[t]) {
      var x, e :| x in done && e in base && Carries(x, e, baseKey, fixKey, t, m[t]);
      assert x in fix;
    }
  }

  /** The loop over `target_index.items()`: here over the definitions the index was built from. */
  method TargetToBase(base: seq<Definition>, fix: seq<Definition>, baseKey: Keying, fixKey: Keying, index: map<Key, string>)
    returns (m: map<string, string>)
    requires DistinctIds(fix) && Indexes(base, baseKey, index)
    ensures Matches(base, fix, baseKey, fixKey, m)
  {
    m := map[];
    for i := 0 to |fix|
      invariant Matches(base, fix[..i], baseKey, fixKey, m)
    {
      var k := fixKey(fix[i]);
      if k in index {
        MatchesMapped(fix[..i], fix[i], base, baseKey, fixKey, index, m);
        m := m[fix[i].id := index[k]];
      } else {
        MatchesUnmapped(fix[..i], fix[i], base, baseKey, fixKey, index, m);
      }
      assert fix[..i + 1] == fix[..i] + [fix[i]];
    }
    assert fix[..|fix|] == fix;
  }

  /** The pairs two symbols come from, and with them the symbols, agree when their images do. */
  lemma SameImageSameSymbol(base: seq<Definition>, fix: seq<Definition>, baseKey: Keying, fixKey: Keying, m: map<string, string>, s: string, t: string)
    requires DistinctIds(base) && DistinctIds(fix) && KeysApart(fix, fixKey) && Matches(base, fix, baseKey, fixKey, m)
    requires s in m && t in m && m[s] == m[t]
    ensures s == t
  {
    var d, e :| d in fix && e in base && Carries(d, e, baseKey, fixKey, s, m[s]);
    var d', e' :| d' in fix && e' in base && Carries(d', e', baseKey, fixKey, t, m[t]);
    assert e == e';
    assert fixKey(d) == fixKey(d');
  }

  /** Distinct target symbols never map to one base symbol. */
  lemma TargetToBaseIsInjective(base: seq<Definition>, fix: seq<Definition>, baseKey: Keying, fixKey: Keying, m: map<string, string>)
    requires DistinctIds(base) && DistinctIds(fix) && KeysApart(fix, fixKey) && Matches(base, fix, baseKey, fixKey, m)
    ensures Injective(m) && m.Keys <= IdsOf(fix) && m.Values <= IdsOf(base)
  {
    forall s, t | s in m && t in m && m[s] == m[t] ensures s == t {
      SameImageSameSymbol(base, fix, baseKey, fixKey, m, s, t);
    }
    forall s | s in m ensures s in IdsOf(fix) && m[s] in IdsOf(base) {
      var d, e :| d in fix && e in base && Carries(d, e, baseKey, fixKey, s, m[s]);
    }
  }

  // ---- Selection ------------------------------------------------------------------------------------

  /** `_span_intersects`. */
  predicate SpanIntersects(start: int, end: int, hunkStart: int, hunkCount: int) {
    if hunkCount == 0 then start <= hunkStart <= end + 1
    else start <= hunkStart + hunkCount - 1 && hunkStart <= end
  }

  predicate Shared(line: int, start: int, end: int, hunkStart: int, hunkCount: int) {
    start <= line <= end && hunkStart <= line < hunkStart + hunkCount
  }

  /** For a counted hunk and a proper span: they share a line. */
  lemma IntersectionSharesLine(start: int, end: int, hunkStart: int, hunkCount: int)
    requires hunkCount > 0 && start <= end
    ensures SpanIntersects(start, end, hunkStart, hunkCount) <==> exists line :: Shared(line, start, end, hunkStart, hunkCount)
  {
    if SpanIntersects(start, end, hunkStart, hunkCount) {
      assert Shared(Max(start, hunkStart), start, end, hunkStart, hunkCount);
    }
  }

  predicate OldHit(d: Definition, hunks: seq<Hunk>) {
    exists h :: h in hunks && h.oldPath == d.path && h.oldCount != 0 && SpanIntersects(d.start, d.end, h.oldStart, h.oldCount)
  }

  predicate NewHit(d: Definition, hunks: seq<Hunk>) {
    exists h :: h in hunks && h.newPath == d.path && h.newCount != 0 && SpanIntersects(d.start, d.end, h.newStart, h.newCount)
  }

  function OldTouched(base: seq<Definition>, hunks: seq<Hunk>): set<string> {
    set d | d in base && OldHit(d, hunks) :: d.id
  }

  function MatchTouched(fix: seq<Definition>, hunks: seq<Hunk>, m: map<string, string>): set<string> {
    set d | d in fix && d.id in m && NewHit(d, hunks) :: m[d.id]
  }

  /** A relation whose callee is a mapped symbol, named on a changed line inside the caller. */
  predicate Mentions(r: Relation, m: map<string, string>, names: map<string, string>, added: seq<Added>) {
    && r.calleeId in m && m[r.calleeId] in names
    && exists a :: a in added && a.path == r.callerPath && r.callerStart <= a.line <= r.callerEnd && names[m[r.calleeId]] in a.tokens
  }

  function RelationReferenced(relations: seq<Relation>, m: map<string, string>, names: map<string, string>, added: seq<Added>): set<string> {
    set r | r in relations && Mentions(r, m, names, added) :: m[r.calleeId]
  }

  /** Mapped target definitions, selected by the match, that enclose a changed line. */
  function Enclosing(a: Added, fix: seq<Definition>, m: map<string, string>, matched: set<string>): set<string> {
    set d | d in fix && d.id in m && m[d.id] in matched && d.path == a.path && d.start <= a.line <= d.end :: m[d.id]
  }

  function Named(base: seq<Definition>, name: string): seq<Definition> {
    if base == [] then [] else (if base[0].name == name then [base[0]] else []) + Named(base[1..], name)
  }

  /** A name on an enclosed changed line that does not name exactly one base definition. */
  predicate Ambiguous(a: Added, base: seq<Definition>, fix: seq<Definition>, m: map<string, string>, matched: set<string>) {
    Enclosing(a, fix, m, matched) != {} && exists name :: name in a.tokens && |Named(base, name)| > 1
  }

  function NameReferenced(a: Added, base: seq<Definition>, fix: seq<Definition>, m: map<string, string>, matched: set<string>): set<string> {
    var enclosing := Enclosing(a, fix, m, matched);
    if enclosing == {} then {} else set d | d in base && d.name in a.tokens && d.id !in enclosing :: d.id
  }

  function AllNameReferenced(added: seq<Added>, base: seq<Definition>, fix: seq<Definition>, m: map<string, string>, matched: set<string>): set<string> {
    if added == [] then {} else NameReferenced(added[0], base, fix, m, matched) + AllNameReferenced(added[1..], base, fix, m, matched)
  }

  lemma {:induction false} NameReferencedAppend(a: seq<Added>, x: Added, base: seq<Definition>, fix: seq<Definition>, m: map<string, string>, matched: set<string>)
    ensures AllNameReferenced(a + [x], base, fix, m, matched) == AllNameReferenced(a, base, fix, m, matched) + NameReferenced(x, base, fix, m, matched)
  {
    if a == [] {
      assert ([] + [x])[1..] == [];
    } else {
      NameReferencedAppend(a[1..], x, base, fix, m, matched);
      assert (a + [x])[1..] == a[1..] + [x];
    }
  }

  datatype Selected = Selected(touched: set<string>, matched: set<string>, referenced: set<string>)
  {
    function All(): set<string> { touched + matched + referenced }
  }

  /** Every hunk touches an accepted definition on one of its sides. */
  predicate HunksClosed(hunks: seq<Hunk>, base: seq<Definition>, fix: seq<Definition>) {
    forall h :: h in hunks ==>
      || (exists d :: d in base && h.oldCount != 0 && d.path == h.oldPath && SpanIntersects(d.start, d.end, h.oldStart, h.oldCount))
      || (exists d :: d in fix && h.newCount != 0 && d.path == h.newPath && SpanIntersects(d.start, d.end, h.newStart, h.newCount))
  }

  function NamesOf(ds: seq<Definition>): map<string, string> {
    if ds == [] then map[] else NamesOf(ds[1..])[ds[0].id := ds[0].name]
  }

  lemma {:induction false} NamesOfIds(ds: seq<Definition>)
    ensures NamesOf(ds).Keys == IdsOf(ds)
  {
    if ds != [] {
      NamesOfIds(ds[1..]);
      assert ds == [ds[0]] + ds[1..];
    }
  }

  /** Both stable indexes and the map between them, or the first refusal. */
  method MapSymbols(hunks: seq<Hunk>, base: seq<Definition>, fix: seq<Definition>)
    returns (r: Result<map<string, string>, OracleError>, ghost renames: map<string, string>)
    requires DistinctIds(base) && DistinctIds(fix)
    ensures r.Success? ==> Mapped(hunks, base, fix, renames, r.value)
    ensures r.Failure? && OneToOne(hunks) ==> r.error == StableDefinitionKeyAmbiguous
    ensures r.Failure? && OneToOne(hunks) && Renames(hunks, renames) ==> !KeysApart(base, KeyedUnder(renames)) || !KeysApart(fix, KeyedUnder(map[]))
    ensures OneToOne(hunks) ==> Renames(hunks, renames)
    ensures !OneToOne(hunks) ==> r == Failure(RenameMappingAmbiguous)
  {
    renames := map[];
    var renamed := RenamePaths(hunks);
    if renamed.Failure? { return Failure(renamed.error), renames; }
    renames := renamed.value;
    var baseIndex := StableIndex(base, KeyedUnder(renamed.value));
    if baseIndex.Failure? { return Failure(baseIndex.error), renames; }
    var targetIndex := StableIndex(fix, KeyedUnder(map[]));
    if targetIndex.Failure? { return Failure(targetIndex.error), renames; }
    var m := TargetToBase(base, fix, KeyedUnder(renamed.value), KeyedUnder(map[]), baseIndex.value);
    return Success(m), renames;
  }

  ghost predicate Mapped(hunks: seq<Hunk>, base: seq<Definition>, fix: seq<Definition>, renames: map<string, string>, m: map<string, string>) {
    && OneToOne(hunks) && Renames(hunks, renames) && Matches(base, fix, KeyedUnder(renames), KeyedUnder(map[]), m)
    && KeysApart(base, KeyedUnder(renames)) && KeysApart(fix, KeyedUnder(map[]))
  }

  /** The sets T_old, T_match and R that `derive` selects under a symbol map. */
  function Selection(hunks: seq<Hunk>, base: seq<Definition>, fix: seq<Definition>, relations: seq<Relation>, added: seq<Added>,
                     m: map<string, string>): Selected {
    var matched := MatchTouched(fix, hunks, m);
    Selected(OldTouched(base, hunks), matched,
             RelationReferenced(relations, m, NamesOf(base), added) + AllNameReferenced(added, base, fix, m, matched))
  }

  predicate AnyAmbiguous(added: seq<Added>, base: seq<Definition>, fix: seq<Definition>, m: map<string, string>, matched: set<string>) {
    exists a :: a in added && Ambiguous(a, base, fix, m, matched)
  }

  /** The loop over changed lines: what each adds, up to the first ambiguous one. */
  method References(base: seq<Definition>, fix: seq<Definition>, relations: seq<Relation>, added: seq<Added>,
                    m: map<string, string>, matched: set<string>)
    returns (r: Result<set<string>, OracleError>)
    ensures r == Failure(ReferenceBindingAmbiguous) || r.Success?
    ensures r.Success? <==> !AnyAmbiguous(added, base, fix, m, matched)
    ensures r.Success? ==> r.value == RelationReferenced(relations, m, NamesOf(base), added) + AllNameReferenced(added, base, fix, m, matched)
  {
    var referenced: set<string> := {};
    for i := 0 to |added|
      invariant !AnyAmbiguous(added[..i], base, fix, m, matched)
      invariant referenced == AllNameReferenced(added[..i], base, fix, m, matched)
    {
      AmbiguityGrows(added, i, base, fix, m, matched);
      if Ambiguous(added[i], base, fix, m, matched) { return Failure(ReferenceBindingAmbiguous); }
      NameReferencedAppend(added[..i], added[i], base, fix, m, matched);
      assert added[..i + 1] == added[..i] + [added[i]];
      referenced := referenced + NameReferenced(added[i], base, fix, m, matched);
    }
    assert added[..|added|] == added;
    return Success(RelationReferenced(relations, m, NamesOf(base), added) + referenced);
  }

  lemma AmbiguityGrows(added: seq<Added>, i: nat, base: seq<Definition>, fix: seq<Definition>, m: map<string, string>, matched: set<string>)
    requires i < |added| && !AnyAmbiguous(added[..i], base, fix, m, matched)
    ensures Ambiguous(added[i], base, fix, m, matched) ==> AnyAmbiguous(added, base, fix, m, matched)
    ensures !Ambiguous(added[i], base, fix, m, matched) ==> !AnyAmbiguous(added[..i + 1], base, fix, m, matched)
  {
    assert added[..i + 1] == added[..i] + [added[i]] && added[i] in added;
  }

  /** The set part of `derive`: T_old, T_match and R, or the refusal. */
  method Derive(hunks: seq<Hunk>, base: seq<Definition>, fix: seq<Definition>, relations: seq<Relation>, added: seq<Added>)
    returns (r: Result<Selected, OracleError>, ghost renames: map<string, string>, ghost m: map<string, string>)
    requires DistinctIds(base) && DistinctIds(fix)
    ensures r.Success? ==> Mapped(hunks, base, fix, renames, m)
    ensures r.Success? ==> r.value == Selection(hunks, base, fix, relations, added, m)
    ensures r.Success? ==> r.value.touched != {} && r.value.matched != {} && HunksClosed(hunks, base, fix)
    ensures r.Success? ==> !AnyAmbiguous(added, base, fix, m, r.value.matched)
    ensures !OneToOne(hunks) ==> r == Failure(RenameMappingAmbiguous)
    ensures OneToOne(hunks) && !(KeysApart(base, KeyedUnder(renames)) && KeysApart(fix, KeyedUnder(map[]))) ==> r == Failure(StableDefinitionKeyAmbiguous)
    ensures Mapped(hunks, base, fix, renames, m) ==>
              var matched := MatchTouched(fix, hunks, m);
              if AnyAmbiguous(added, base, fix, m, matched) then r == Failure(ReferenceBindingAmbiguous)
              else if OldTouched(base, hunks) == {} || matched == {} || !HunksClosed(hunks, base, fix) then r == Failure(AcceptedFactClosureIncomplete)
              else r.Success?
    ensures OneToOne(hunks) ==> Renames(hunks, renames)
    ensures OneToOne(hunks) && KeysApart(base, KeyedUnder(renames)) && KeysApart(fix, KeyedUnder(map[])) ==> Mapped(hunks, base, fix, renames, m)
  {
    m := map[];
    var symbols;
    symbols, renames := MapSymbols(hunks, base, fix);
    if symbols.Failure? { return Failure(symbols.error), renames, m; }
    m := symbols.value;
    var touched := OldTouched(base, hunks);
    var matched := MatchTouched(fix, hunks, symbols.value);
    var referenced := References(base, fix, relations, added, symbols.value, matched);
    if referenced.Failure? { return Failure(referenced.error), renames, m; }
    if touched == {} || matched == {} || !HunksClosed(hunks, base, fix) {
      return Failure(AcceptedFactClosureIncomplete), renames, m;
    }
    return Success(Selected(touched, matched, referenced.value)), renames, m;
  }

  /** Every selected symbol is a base definition. */
  lemma SelectedAreBaseDefinitions(hunks: seq<Hunk>, base: seq<Definition>, fix: seq<Definition>, relations: seq<Relation>, added: seq<Added>,
                                   renames: map<string, string>, m: map<string, string>)
    requires Matches(base, fix, KeyedUnder(renames), KeyedUnder(map[]), m)
    ensures Selection(hunks, base, fix, relations, added, m).All() <= IdsOf(base)
  {
    NamesOfIds(base);
    NameReferencedAreBase(added, base, fix, m, MatchTouched(fix, hunks, m));
    forall d | d in fix && d.id in m ensures m[d.id] in IdsOf(base) {
      var d', e :| d' in fix && e in base && Carries(d', e, KeyedUnder(renames), KeyedUnder(map[]), d.id, m[d.id]);
    }
  }

  lemma {:induction false} NameReferencedAreBase(added: seq<Added>, base: seq<Definition>, fix: seq<Definition>, m: map<string, string>, matched: set<string>)
    ensures AllNameReferenced(added, base, fix, m, matched) <= IdsOf(base)
  {
    if added != [] { NameReferencedAreBase(added[1..], base, fix, m, matched); }
  }

  // ---- Evaluation lines -------------------------------------------------------------------------------

  datatype Range = Range(path: string, start: int, end: int)

  datatype Line = Line(path: string, line: int)

  predicate RangeLe(a: Range, b: Range) {
    if a.path != b.path then TextLe(a.path, b.path)
    else a.start < b.start || (a.start == b.start && a.end <= b.end)
  }

  predicate LineLe(a: Line, b: Line) {
    if a.path != b.path then TextLe(a.path, b.path) else a.line <= b.line
  }

  predicate LineLt(a: Line, b: Line) { LineLe(a, b) && a != b }

  predicate Holds(r: Range, l: Line) { l.path == r.path && r.start <= l.line <= r.end }

  function RangesOf(base: seq<Definition>, symbols: set<string>): (r: seq<Range>)
    ensures forall x :: x in r <==> exists d :: d in base && d.id in symbols && x == Range(d.path, d.start, d.end)
  {
    if base == [] then [] else
    var rest := RangesOf(base[1..], symbols);
    assert base == [base[0]] + base[1..];
    (if base[0].id in symbols then [Range(base[0].path, base[0].start, base[0].end)] else []) + rest
  }

  function MergeInto(merged: seq<Range>, row: Range): (r: seq<Range>)
    ensures r != []
  {
    var n := |merged| - 1;
    if n >= 0 && merged[n].path == row.path && row.start <= merged[n].end + 1
    then merged[..n] + [merged[n].(end := Max(merged[n].end, row.end))]
    else merged + [row]
  }

  function MergeAll(rows: seq<Range>): seq<Range> {
    if rows == [] then [] else MergeInto(MergeAll(rows[..|rows| - 1]), rows[|rows| - 1])
  }

  lemma MergeAllStep(rows: seq<Range>, i: nat)
    requires i < |rows|
    ensures MergeAll(rows[..i + 1]) == MergeInto(MergeAll(rows[..i]), rows[i])
  {
    assert rows[..i + 1][..i] == rows[..i];
  }

  /** `_coalesce`: sort, then widen the last range in place or append. */
  method Coalesce(base: seq<Definition>, symbols: set<string>) returns (merged: seq<Range>)
    ensures merged == MergeAll(Sort(RangesOf(base, symbols), RangeLe))
  {
    var rows := Sort(RangesOf(base, symbols), RangeLe);
    merged := [];
    for i := 0 to |rows|
      invariant merged == MergeAll(rows[..i])
    {
      var row, n := rows[i], |merged| - 1;
      ghost var front := merged;
      if n >= 0 && merged[n].path == row.path && row.start <= merged[n].end + 1 {
        merged := merged[..n] + [merged[n].(end := Max(merged[n].end, row.end))];
      } else {
        merged := merged + [row];
      }
      assert merged == MergeInto(front, row);
      MergeAllStep(rows, i);
    }
    assert rows[..|rows|] == rows;
  }

  function LinesFrom(path: string, start: int, end: int): (r: seq<Line>)
    ensures |r| == Max(0, end - start + 1) && forall i :: 0 <= i < |r| ==> r[i] == Line(path, start + i)
    decreases Max(0, end - start + 1)
  {
    if start > end then [] else [Line(path, start)] + LinesFrom(path, start + 1, end)
  }

  function LinesOf(ranges: seq<Range>): seq<Line> {
    if ranges == [] then [] else
    var n := |ranges| - 1;
    LinesOf(ranges[..n]) + LinesFrom(ranges[n].path, ranges[n].start, ranges[n].end)
  }

  function EvaluationLines(ranges: seq<Range>): seq<Line> { Sort(LinesOf(ranges), LineLe) }

  ghost predicate HasLine(ranges: seq<Range>, l: Line) { exists r :: r in ranges && Holds(r, l) }

  predicate Increasing(lines: seq<Line>) { forall i, j :: 0 <= i < j < |lines| ==> LineLt(lines[i], lines[j]) }

  /** Ranges in order with a gap between neighbours of one path. */
  predicate Separated(ranges: seq<Range>) {
    forall i, j :: 0 <= i < j < |ranges| ==>
      if ranges[i].path != ranges[j].path then TextLe(ranges[i].path, ranges[j].path)
      else ranges[i].end + 1 < ranges[j].start
  }

  lemma LineOrderIsTotal()
    ensures TotalPreorder(LineLe) && TotalPreorder(RangeLe)
  {
    TextLeIsTotalPreorder();
  }

  /** One merge step keeps the lines and the separation. */
  lemma MergeStep(merged: seq<Range>, row: Range, l: Line)
    requires Separated(merged)
    requires forall i :: 0 <= i < |merged| ==> merged[i].path == row.path ==> merged[i].start <= row.start
    ensures HasLine(MergeInto(merged, row), l) <==> HasLine(merged, l) || Holds(row, l)
  {
    var n := |merged| - 1;
    var next := MergeInto(merged, row);
    if n >= 0 && merged[n].path == row.path && row.start <= merged[n].end + 1 {
      var wide := merged[n].(end := Max(merged[n].end, row.end));
      assert merged == merged[..n] + [merged[n]] && next == merged[..n] + [wide];
      assert merged[n] in merged && wide in next;
      assert Holds(wide, l) <==> Holds(merged[n], l) || Holds(row, l);
    } else {
      assert row in next;
    }
  }

  /** Every row of `rows` comes no later than `row`, so every merged range starts no later. */
  ghost predicate StartsBefore(merged: seq<Range>, row: Range) {
    forall i :: 0 <= i < |merged| ==>
      if merged[i].path != row.path then TextLe(merged[i].path, row.path) else merged[i].start <= row.start
  }

  lemma MergeSeparated(merged: seq<Range>, row: Range)
    requires Separated(merged) && StartsBefore(merged, row)
    ensures Separated(MergeInto(merged, row)) && StartsBefore(MergeInto(merged, row), row)
  {
    var n := |merged| - 1;
    if n >= 0 && !(merged[n].path == row.path && row.start <= merged[n].end + 1) {
      forall i | 0 <= i <= n && merged[i].path == row.path ensures merged[i].end + 1 < row.start {
        OnePathToTheEnd(merged, row, i);
      }
    }
  }

  /** Once the sort has moved past a path it never returns to it. */
  lemma OnePathToTheEnd(merged: seq<Range>, row: Range, i: nat)
    requires Separated(merged) && StartsBefore(merged, row) && i < |merged| && merged[i].path == row.path
    ensures merged[|merged| - 1].path == row.path
    ensures i < |merged| - 1 ==> merged[i].end + 1 < merged[|merged| - 1].start
  {
    var n := |merged| - 1;
    if merged[n].path != row.path {
      TextLeAntisymmetric(merged[i].path, merged[n].path);
    }
  }

  ghost predicate AtMost(rows: seq<Range>, row: Range) { forall x :: x in rows ==> RangeLe(x, row) }

  lemma MergeStartsBefore(merged: seq<Range>, last: Range, row: Range)
    requires StartsBefore(merged, row) && RangeLe(last, row)
    ensures StartsBefore(MergeInto(merged, last), row)
  {}

  lemma {:induction false} MergedStartsBefore(rows: seq<Range>, row: Range)
    requires AtMost(rows, row)
    ensures StartsBefore(MergeAll(rows), row)
  {
    if rows != [] {
      var n := |rows| - 1;
      assert forall x :: x in rows[..n] ==> x in rows;
      MergedStartsBefore(rows[..n], row);
      assert rows[n] in rows;
      MergeStartsBefore(MergeAll(rows[..n]), rows[n], row);
    }
  }

  lemma {:induction false} MergedAreSeparated(rows: seq<Range>)
    requires Sorted(rows, RangeLe)
    ensures Separated(MergeAll(rows))
  {
    if rows != [] {
      var n := |rows| - 1;
      MergedAreSeparated(rows[..n]);
      MergedStartsBefore(rows[..n], rows[n]);
      MergeSeparated(MergeAll(rows[..n]), rows[n]);
    }
  }

  lemma LastRow(rows: seq<Range>, l: Line)
    requires rows != []
    ensures HasLine(rows, l) <==> HasLine(rows[..|rows| - 1], l) || Holds(rows[|rows| - 1], l)
  {
    assert rows == rows[..|rows| - 1] + [rows[|rows| - 1]];
    assert rows[|rows| - 1] in rows;
  }

  lemma {:induction false} MergeKeepsLines(rows: seq<Range>, l: Line)
    requires Sorted(rows, RangeLe)
    ensures HasLine(MergeAll(rows), l) <==> HasLine(rows, l)
  {
    if rows != [] {
      var n := |rows| - 1;
      var last := rows[n];
      MergeKeepsLines(rows[..n], l);
      MergedAreSeparated(rows[..n]);
      MergedStartsBefore(rows[..n], last);
      MergeStep(MergeAll(rows[..n]), last, l);
      LastRow(rows, l);
    }
  }

  lemma {:induction false} LinesIncrease(ranges: seq<Range>)
    requires Separated(ranges)
    ensures Increasing(LinesOf(ranges))
    ensures forall l :: l in LinesOf(ranges) <==> HasLine(ranges, l)
  {
    if ranges != [] {
      var n := |ranges| - 1;
      var front, last := LinesOf(ranges[..n]), LinesFrom(ranges[n].path, ranges[n].start, ranges[n].end);
      LinesIncrease(ranges[..n]);
      assert ranges == ranges[..n] + [ranges[n]];
      forall l ensures l in LinesOf(ranges) <==> HasLine(ranges, l) {
        LinesFromMembers(ranges[n], l);
        assert ranges[n] in ranges;
      }
      forall x, y | x in front && y in last ensures LineLt(x, y) {
        var r :| r in ranges[..n] && Holds(r, x);
        var i :| 0 <= i < n && ranges[i] == r;
        LinesFromMembers(ranges[n], y);
      }
      IncreasingConcat(front, last);
    }
  }

  lemma LinesFromMembers(r: Range, l: Line)
    ensures l in LinesFrom(r.path, r.start, r.end) <==> Holds(r, l)
  {
    var ls := LinesFrom(r.path, r.start, r.end);
    if Holds(r, l) { assert ls[l.line - r.start] == l; }
  }

  lemma IncreasingConcat(a: seq<Line>, b: seq<Line>)
    requires Increasing(a) && Increasing(b)
    requires forall x, y :: x in a && y in b ==> LineLt(x, y)
    ensures Increasing(a + b)
  {
    var c := a + b;
    forall i, j | 0 <= i < j < |c| ensures LineLt(c[i], c[j]) {
      assert i < |a| ==> c[i] in a;
      assert j >= |a| ==> c[j] in b;
    }
  }

  /** The evaluation lines are the strictly increasing enumeration of exactly the lines of the
      selected declarations, for any spans, empty ones included. */
  lemma EvaluationLinesEnumerate(base: seq<Definition>, symbols: set<string>)
    ensures var lines := EvaluationLines(MergeAll(Sort(RangesOf(base, symbols), RangeLe)));
            && Increasing(lines)
            && forall l :: l in lines <==> exists d :: d in base && d.id in symbols && Holds(Range(d.path, d.start, d.end), l)
  {
    var rows := RangesOf(base, symbols);
    LineOrderIsTotal();
    SortSpec(rows, RangeLe);
    SortMembers(rows, RangeLe);
    var merged := MergeAll(Sort(rows, RangeLe));
    MergedAreSeparated(Sort(rows, RangeLe));
    LinesIncrease(merged);
    SortFixesSorted(LinesOf(merged), LineLe);
    forall l ensures HasLine(rows, l) <==> HasLine(merged, l) {
      MergeKeepsLines(Sort(rows, RangeLe), l);
      assert HasLine(Sort(rows, RangeLe), l) <==> HasLine(rows, l);
    }
    forall l ensures HasLine(rows, l) <==> exists d :: d in base && d.id in symbols && Holds(Range(d.path, d.start, d.end), l) {
      if d :| d in base && d.id in symbols && Holds(Range(d.path, d.start, d.end), l) {
        assert Range(d.path, d.start, d.end) in rows;
      }
    }
  }
}
