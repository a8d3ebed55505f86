/** The create-only artifact sink of a run and the byte closure its verifier checks
    (evaluator/artifacts.py).  `K` is the run's set of relative paths; `name` is their text, which
    orders the ledger. */
module Artifacts {
  import opened Wrappers
  import opened Ordering
  import opened Grouping
  import P = SourcePayload

  type Bytes = seq<P.Byte>

  datatype Entry<K> = Entry(path: K, kind: string, length: nat, sha: string)
  datatype Ledger<K> = Ledger(entries: seq<Entry<K>>, sha: string)
  datatype SealBody = SealBody(run: string, execution: string, stage: string, ledger: string, terminal: string)
  datatype Seal = Seal(body: SealBody, id: string)

  /** Hashes and canonical bytes of ledgers and seals, and the parser of each. */
  datatype Codec<!K> = Codec(name: K -> string, sha: Bytes -> string, ledgerHash: seq<Entry<K>> -> string, sealId: SealBody -> string,
                            ledger: Ledger<K> -> Bytes, seal: Seal -> Bytes, parseLedger: Bytes -> Option<Ledger<K>>,
                            parseSeal: Bytes -> Option<Seal>, ledgerPath: K, sealPath: K)

  /** Parsing undoes canonical encoding. */
  ghost predicate RoundTrips<K(!new)>(c: Codec<K>) {
    (forall l :: c.parseLedger(c.ledger(l)) == Some(l)) && (forall s :: c.parseSeal(c.seal(s)) == Some(s))
  }

  function PathOf<K>(e: Entry<K>): K { e.path }

  function NameIn<K>(c: Codec<K>): Entry<K> -> string { (e: Entry<K>) => c.name(e.path) }

  /** Ledger order: by path text. */
  function ByName<K>(c: Codec<K>): (Entry<K>, Entry<K>) -> bool { (a: Entry<K>, b: Entry<K>) => TextLe(c.name(a.path), c.name(b.path)) }

  lemma ByNameIsTotal<K(!new)>(c: Codec<K>)
    ensures TotalPreorder(ByName(c))
  {
    var le := ByName(c);
    forall x, y ensures le(x, y) || le(y, x) { TextLeTotal(c.name(x.path), c.name(y.path)); }
    forall x, y, z | le(x, y) && le(y, z) ensures le(x, z) {
      TextLeTransitive(c.name(x.path), c.name(y.path), c.name(z.path));
    }
  }

  function EntryFor<K>(c: Codec<K>, path: K, kind: string, data: Bytes): Entry<K> { Entry(path, kind, |data|, c.sha(data)) }

  predicate Matches<K(==)>(c: Codec<K>, e: Entry<K>, files: map<K, Bytes>) {
    e.path in files && e.length == |files[e.path]| && e.sha == c.sha(files[e.path])
  }

  /** Each entry describes its file, and the entries' paths are the files', each once. */
  ghost predicate Describes<K>(c: Codec<K>, entries: seq<Entry<K>>, files: map<K, Bytes>) {
    && Distinct(Map(entries, PathOf)) && (forall e :: e in entries ==> Matches(c, e, files))
    && files.Keys == set e | e in entries :: e.path
  }

  function LedgerFor<K>(c: Codec<K>, entries: seq<Entry<K>>): Ledger<K> {
    var sorted := Sort(entries, ByName(c));
    Ledger(sorted, c.ledgerHash(sorted))
  }

  function SealFor<K>(c: Codec<K>, entries: seq<Entry<K>>, run: string, execution: string, stage: string, terminal: string): Seal {
    var body := SealBody(run, execution, stage, LedgerFor(c, entries).sha, terminal);
    Seal(body, c.sealId(body))
  }

  lemma DescribesStep<K>(c: Codec<K>, entries: seq<Entry<K>>, files: map<K, Bytes>, path: K, kind: string, data: Bytes)
    requires Describes(c, entries, files) && path !in files
    ensures Describes(c, entries + [EntryFor(c, path, kind, data)], files[path := data])
  {
    var e := EntryFor(c, path, kind, data);
    var paths := Map(entries, PathOf);
    assert Map(entries + [e], PathOf) == paths + [path];
    forall i | 0 <= i < |paths| ensures paths[i] != path { assert entries[i] in entries; }
    forall x | x in entries + [e] ensures Matches(c, x, files[path := data]) {
      if x in entries { assert x.path in files; }
    }
  }

  /** Create-only: every write takes a new path and adds its entry; nothing is read back. */
  class ArtifactSink<K(==)> {
    const codec: Codec<K>
    var files: map<K, Bytes>
    var entries: seq<Entry<K>>

    ghost predicate Valid() reads this { Describes(codec, entries, files) }

    constructor (codec: Codec<K>)
      ensures this.codec == codec && files == map[] && entries == [] && Valid()
    {
      this.codec, files, entries := codec, map[], [];
    }

    /** `bytes`: refused, and nothing written, when the path is already there. */
    method Write(path: K, data: Bytes, kind: string) returns (ok: bool)
      requires Valid()
      modifies this
      ensures Valid() && ok == (path !in old(files))
      ensures files == if ok then old(files)[path := data] else old(files)
      ensures entries == if ok then old(entries) + [EntryFor(codec, path, kind, data)] else old(entries)
    {
      if path in files { return false; }
      DescribesStep(codec, entries, files, path, kind, data);
      files, entries := files[path := data], entries + [EntryFor(codec, path, kind, data)];
      return true;
    }

    /** `finalize`: the ledger of what was written before it, then the seal over the ledger. */
    method Finalize(execution: string, stage: string, run: string, terminal: string) returns (r: Option<Seal>)
      requires Valid() && codec.ledgerPath != codec.sealPath
      modifies this
      ensures r.Some? <==> codec.ledgerPath !in old(files) && codec.sealPath !in old(files)
      ensures r.Some? ==> r.value == SealFor(codec, old(entries), run, execution, stage, terminal)
      ensures r.Some? ==> files == old(files)[codec.ledgerPath := codec.ledger(LedgerFor(codec, old(entries)))][codec.sealPath := codec.seal(r.value)]
    {
      var seal := SealFor(codec, entries, run, execution, stage, terminal);
      var ledger := LedgerFor(codec, entries);
      var wrote := Write(codec.ledgerPath, codec.ledger(ledger), "ledger");
      if !wrote { return None; }
      wrote := Write(codec.sealPath, codec.seal(seal), "seal");
      if !wrote { return None; }
      return Some(seal);
    }
  }

  // ---- The verifier's byte closure ------------------------------------------------------------------------------

  predicate LedgerCloses<K(==)>(c: Codec<K>, files: map<K, Bytes>, l: Ledger<K>) {
    && c.ledgerPath in files && c.parseLedger(files[c.ledgerPath]) == Some(l) && c.ledger(l) == files[c.ledgerPath]
    && l.sha == c.ledgerHash(l.entries)
  }

  predicate EntriesClose<K(==)>(c: Codec<K>, files: map<K, Bytes>, entries: seq<Entry<K>>) {
    && Map(entries, NameIn(c)) == Sort(Map(entries, NameIn(c)), TextLe) && Distinct(Map(entries, PathOf))
    && files.Keys == (set e | e in entries :: e.path) + {c.ledgerPath, c.sealPath}
    && (forall e :: e in entries ==> Matches(c, e, files))
  }

  predicate SealCloses<K(==)>(c: Codec<K>, files: map<K, Bytes>, l: Ledger<K>, s: Seal) {
    && c.sealPath in files && c.parseSeal(files[c.sealPath]) == Some(s) && c.seal(s) == files[c.sealPath]
    && s.body.ledger == l.sha && s.id == c.sealId(s.body)
  }

  /** `verify_run` up to the semantic replay: what it asks of the files, ledger and seal. */
  predicate Closes<K(==)>(c: Codec<K>, files: map<K, Bytes>, l: Ledger<K>, s: Seal) {
    LedgerCloses(c, files, l) && EntriesClose(c, files, l.entries) && SealCloses(c, files, l, s)
  }

  /** The entry loop of `verify_run`. */
  method CheckEntries<K(==)>(c: Codec<K>, entries: seq<Entry<K>>, files: map<K, Bytes>) returns (ok: bool)
    ensures ok <==> forall e :: e in entries ==> Matches(c, e, files)
  {
    for i := 0 to |entries|
      invariant forall e :: e in entries[..i] ==> Matches(c, e, files)
    {
      assert entries[i] in entries;
      if !Matches(c, entries[i], files) { return false; }
    }
    assert entries[..|entries|] == entries;
    return true;
  }

  method CloseBytes<K(==)>(c: Codec<K>, files: map<K, Bytes>) returns (r: Option<Seal>)
    ensures r.Some? <==> exists l, s :: Closes(c, files, l, s)
    ensures r.Some? ==> exists l :: Closes(c, files, l, r.value)
  {
    if c.ledgerPath !in files || c.sealPath !in files { return None; }
    var ledger := c.parseLedger(files[c.ledgerPath]);
    if ledger == None || c.ledger(ledger.value) != files[c.ledgerPath] { return None; }
    var l := ledger.value;
    if l.sha != c.ledgerHash(l.entries) { return None; }
    var names := Map(l.entries, NameIn(c));
    if names != Sort(names, TextLe) || !Distinct(Map(l.entries, PathOf)) { return None; }
    if files.Keys != (set e | e in l.entries :: e.path) + {c.ledgerPath, c.sealPath} { return None; }
    var ok := CheckEntries(c, l.entries, files);
    if !ok { return None; }
    var seal := c.parseSeal(files[c.sealPath]);
    if seal == None || c.seal(seal.value) != files[c.sealPath] { return None; }
    var s := seal.value;
    if s.body.ledger != l.sha || s.id != c.sealId(s.body) { return None; }
    assert Closes(c, files, l, s);
    return Some(s);
  }

  lemma SortedPathsClose<K(!new)>(c: Codec<K>, entries: seq<Entry<K>>)
    requires Distinct(Map(entries, PathOf))
    ensures var sorted := Sort(entries, ByName(c));
            && Distinct(Map(sorted, PathOf)) && Map(sorted, NameIn(c)) == Sort(Map(sorted, NameIn(c)), TextLe)
            && forall e :: e in sorted <==> e in entries
  {
    var sorted := Sort(entries, ByName(c));
    ByNameIsTotal(c);
    SortSpec(entries, ByName(c));
    SortMembers(entries, ByName(c));
    MapIgnoresOrder(sorted, entries, PathOf);
    DistinctIgnoresOrder(Map(sorted, PathOf), Map(entries, PathOf));
    NamesSorted(c, sorted);
  }

  lemma SortedEntriesClose<K(!new)>(c: Codec<K>, entries: seq<Entry<K>>, files: map<K, Bytes>, all: map<K, Bytes>)
    requires Describes(c, entries, files) && c.ledgerPath !in files && c.sealPath !in files
    requires all.Keys == files.Keys + {c.ledgerPath, c.sealPath} && forall p :: p in files ==> all[p] == files[p]
    ensures EntriesClose(c, all, Sort(entries, ByName(c)))
  {
    SortedPathsClose(c, entries);
    EntriesStillMatch(c, entries, Sort(entries, ByName(c)), files, all);
  }

  lemma EntriesStillMatch<K(!new)>(c: Codec<K>, entries: seq<Entry<K>>, sorted: seq<Entry<K>>, files: map<K, Bytes>, all: map<K, Bytes>)
    requires Describes(c, entries, files) && (forall e :: e in sorted <==> e in entries) && forall p :: p in files ==> p in all && all[p] == files[p]
    ensures (set e | e in sorted :: e.path) == files.Keys
    ensures forall e :: e in sorted ==> Matches(c, e, all)
  {
    forall e | e in sorted ensures Matches(c, e, all) { assert e in entries && Matches(c, e, files); }
  }

  /** What a sink finalizes, its verifier closes. */
  lemma FinalizedCloses<K(!new)>(c: Codec<K>, entries: seq<Entry<K>>, files: map<K, Bytes>, run: string, execution: string, stage: string, terminal: string)
    requires RoundTrips(c) && Describes(c, entries, files) && c.ledgerPath != c.sealPath && c.ledgerPath !in files && c.sealPath !in files
    ensures var l, s := LedgerFor(c, entries), SealFor(c, entries, run, execution, stage, terminal);
            Closes(c, files[c.ledgerPath := c.ledger(l)][c.sealPath := c.seal(s)], l, s)
  {
    var l, s := LedgerFor(c, entries), SealFor(c, entries, run, execution, stage, terminal);
    SortedEntriesClose(c, entries, files, files[c.ledgerPath := c.ledger(l)][c.sealPath := c.seal(s)]);
  }

  lemma NamesSorted<K(!new)>(c: Codec<K>, sorted: seq<Entry<K>>)
    requires Sorted(sorted, ByName(c))
    ensures Map(sorted, NameIn(c)) == Sort(Map(sorted, NameIn(c)), TextLe)
  {
    TextLeIsTotalPreorder();
    var names := Map(sorted, NameIn(c));
    forall i, j | 0 <= i < j < |names| ensures TextLe(names[i], names[j]) {
      assert ByName(c)(sorted[i], sorted[j]);
    }
    SortFixesSorted(names, TextLe);
  }

  /** `verify_run`: the bytes close, and the records they hold replay under the seal. */
  ghost predicate Verifies<K(!new)>(c: Codec<K>, files: map<K, Bytes>, replays: Seal -> bool) {
    exists l, s :: Closes(c, files, l, s) && replays(s)
  }

  lemma ClosedOnce<K>(c: Codec<K>, files: map<K, Bytes>, l: Ledger<K>, s: Seal, l': Ledger<K>, s': Seal)
    requires Closes(c, files, l, s) && Closes(c, files, l', s')
    ensures l == l' && s == s'
  {}

  method VerifyRun<K(==,!new)>(c: Codec<K>, files: map<K, Bytes>, replays: Seal -> bool) returns (ok: bool)
    ensures ok <==> Verifies(c, files, replays)
  {
    var seal := CloseBytes(c, files);
    if seal == None { return false; }
    ghost var l :| Closes(c, files, l, seal.value);
    ok := replays(seal.value);
    if Verifies(c, files, replays) {
      ghost var l', s' :| Closes(c, files, l', s') && replays(s');
      ClosedOnce(c, files, l, seal.value, l', s');
    }
  }
}
