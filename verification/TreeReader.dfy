/** The recursive git tree reader (evaluator/repository.py `GitRepository.tree`). */
module TreeReader {
  import opened Wrappers
  import opened SourcePayload

  type Text = seq<Byte>
  type Oid = seq<Byte>

  const SPACE: Byte := 0x20
  const NUL: Byte := 0x00
  const SLASH: Byte := 0x2F
  const DOT: Byte := 0x2E
  const BACKSLASH: Byte := 0x5C

  datatype Kind = Commit | Tree | Blob
  datatype Object = Object(kind: Kind, content: Text)

  datatype Mode = Directory | Regular | Executable | Symlink

  datatype Refusal =
    | ObjectReadFailed
    | ObjectHashMismatch
    | ObjectTypeInvalid
    | TreeFramingInvalid
    | TreeEdgeInvalid
    | TreePathInvalid
    | TreeDuplicatePath
    | RecursionExhausted

  /** One parsed edge: `mode SP name NUL child`. */
  datatype Entry = Entry(mode: Mode, name: Text, child: Oid)

  /** `output` and `ignored_symlink_count` of one walk. */
  datatype Scan = Scan(output: map<Text, (Mode, Oid)>, symlinks: nat)

  /** What git answers for an object id, and the digest every answer is checked against. */
  datatype Objects = Objects(git: Oid -> Option<Object>, digest: Object -> Oid)

  function ModeText(m: Mode): Text {
    match m
    case Directory => [0x34, 0x30, 0x30, 0x30, 0x30]
    case Regular => [0x31, 0x30, 0x30, 0x36, 0x34, 0x34]
    case Executable => [0x31, 0x30, 0x30, 0x37, 0x35, 0x35]
    case Symlink => [0x31, 0x32, 0x30, 0x30, 0x30, 0x30]
  }

  function ModeOf(t: Text): Option<Mode> {
    if t == ModeText(Directory) then Some(Directory)
    else if t == ModeText(Regular) then Some(Regular)
    else if t == ModeText(Executable) then Some(Executable)
    else if t == ModeText(Symlink) then Some(Symlink)
    else None
  }

  /** First index of `b`, or the length when there is none. */
  function Find(t: Text, b: Byte): (i: nat)
    ensures i <= |t| && (i < |t| ==> t[i] == b)
    ensures forall k :: 0 <= k < i ==> t[k] != b
  {
    if t == [] then 0 else if t[0] == b then 0 else 1 + Find(t[1..], b)
  }

  predicate ValidName(name: Text) {
    ValidUtf8(name) && name != [] && SLASH !in name && name != [DOT] && name != [DOT, DOT]
  }

  predicate ValidPart(part: Text) { part != [] && part != [DOT] && part != [DOT, DOT] }

  /** `all(part not in {"", ".", ".."} for part in path.split("/"))`. */
  predicate ValidParts(path: Text)
    decreases |path|
  {
    var i := Find(path, SLASH);
    ValidPart(path[..i]) && (i < |path| ==> ValidParts(path[i + 1..]))
  }

  predicate ValidPath(path: Text) {
    path != [] && NUL !in path && BACKSLASH !in path && path[0] != SLASH && ValidParts(path)
  }

  /** The edge at the front of `rest` and its length in bytes.  A missing separator is the
      length of the text here and -1 in the source; the same comparisons refuse both. */
  function ParseEntry(rest: Text, width: nat): (r: Result<(Entry, nat), Refusal>)
    ensures r.Success? ==> 0 < r.value.1 <= |rest|
  {
    var space, nul := Find(rest, SPACE), Find(rest, NUL);
    if space <= 0 || nul <= space || nul + 1 + width > |rest| then Failure(TreeFramingInvalid)
    else
      var mode, name := ModeOf(rest[..space]), rest[space + 1..nul];
      if mode.None? || !ValidName(name) then Failure(TreeEdgeInvalid)
      else Success((Entry(mode.value, name, rest[nul + 1..nul + 1 + width]), nul + 1 + width))
  }

  /** `object`: read, hash-verify, check the type. */
  function Verified(objects: Objects, oid: Oid): Result<Object, Refusal> {
    match objects.git(oid)
    case None => Failure(ObjectReadFailed)
    case Some(o) => if objects.digest(o) != oid then Failure(ObjectHashMismatch) else Success(o)
  }

  function Typed(objects: Objects, oid: Oid, kind: Kind): Result<Text, Refusal> {
    match Verified(objects, oid)
    case Failure(e) => Failure(e)
    case Success(o) => if o.kind != kind then Failure(ObjectTypeInvalid) else Success(o.content)
  }

  /** `visit`; `fuel` is the interpreter's recursion limit. */
  function Visit(objects: Objects, width: nat, fuel: nat, oid: Oid, prefix: Text, scan: Scan): Result<Scan, Refusal>
    decreases fuel, 1, 0
  {
    match Typed(objects, oid, Tree)
    case Failure(e) => Failure(e)
    case Success(content) => Walk(objects, width, fuel, content, {}, prefix, scan)
  }

  /** The loop of `visit` over the edges still unread. */
  function Walk(objects: Objects, width: nat, fuel: nat, rest: Text, seen: set<Text>, prefix: Text, scan: Scan): Result<Scan, Refusal>
    decreases fuel, 0, |rest|
  {
    if rest == [] then Success(scan) else
    match ParseEntry(rest, width)
    case Failure(e) => Failure(e)
    case Success((entry, length)) =>
      if entry.name in seen then Failure(TreeEdgeInvalid) else
      match Descend(objects, width, fuel, entry, prefix, scan)
      case Failure(e) => Failure(e)
      case Success(next) => Walk(objects, width, fuel, rest[length..], seen + {entry.name}, prefix, next)
  }

  /** One edge: into a directory, or a leaf. */
  function Descend(objects: Objects, width: nat, fuel: nat, entry: Entry, prefix: Text, scan: Scan): Result<Scan, Refusal>
    decreases fuel, 0, 0
  {
    var path := prefix + entry.name;
    if !ValidPath(path) then Failure(TreePathInvalid)
    else if entry.mode == Directory then
      if fuel == 0 then Failure(RecursionExhausted)
      else Visit(objects, width, fuel - 1, entry.child, path + [SLASH], scan)
    else if path in scan.output then Failure(TreeDuplicatePath)
    else
      match Typed(objects, entry.child, Blob)
      case Failure(e) => Failure(e)
      case Success(_) => Success(Leaf(entry, path, scan))
  }

  function Leaf(entry: Entry, path: Text, scan: Scan): Scan {
    if entry.mode == Symlink then scan.(symlinks := scan.symlinks + 1)
    else scan.(output := scan.output[path := (entry.mode, entry.child)])
  }

  // ---- The reader, with its object cache ---------------------------------------------------

  class GitRepository {
    const objects: Objects
    const width: nat
    var cache: map<Oid, Object>

    constructor (objects: Objects, width: nat)
      ensures this.objects == objects && this.width == width && CacheIsVerified()
    {
      this.objects := objects;
      this.width := width;
      cache := map[];
    }

    /** Only verified answers are cached. */
    ghost predicate CacheIsVerified()
      reads this
    {
      forall oid :: oid in cache ==> Verified(objects, oid) == Success(cache[oid])
    }

    method ReadObject(oid: Oid, kind: Kind) returns (r: Result<Text, Refusal>)
      requires CacheIsVerified()
      modifies this`cache
      ensures CacheIsVerified() && r == Typed(objects, oid, kind)
      ensures forall o :: o in old(cache) ==> o in cache && cache[o] == old(cache)[o]
    {
      if oid !in cache {
        var answer := objects.git(oid);
        if answer.None? { return Failure(ObjectReadFailed); }
        if objects.digest(answer.value) != oid { return Failure(ObjectHashMismatch); }
        cache := cache[oid := answer.value];
      }
      var found := cache[oid];
      if found.kind != kind { return Failure(ObjectTypeInvalid); }
      return Success(found.content);
    }

    method VisitTree(oid: Oid, prefix: Text, scan: Scan, fuel: nat) returns (r: Result<Scan, Refusal>)
      requires CacheIsVerified()
      modifies this`cache
      ensures CacheIsVerified() && r == Visit(objects, width, fuel, oid, prefix, scan)
      decreases fuel, 3
    {
      var read := ReadObject(oid, Tree);
      if read.Failure? { return Failure(read.error); }
      r := VisitEdges(read.value, prefix, scan, fuel);
    }

    method VisitEdges(content: Text, prefix: Text, scan: Scan, fuel: nat) returns (r: Result<Scan, Refusal>)
      requires CacheIsVerified()
      modifies this`cache
      ensures CacheIsVerified() && r == Walk(objects, width, fuel, content, {}, prefix, scan)
      decreases fuel, 2
    {
      var index, seen, current := 0, {}, scan;
      ghost var rest := content;
      while index < |content|
        invariant index <= |content| && rest == content[index..] && CacheIsVerified()
        invariant Walk(objects, width, fuel, rest, seen, prefix, current) == Walk(objects, width, fuel, content, {}, prefix, scan)
      {
        var step := VisitNext(content[index..], seen, prefix, current, fuel);
        if step.Failure? { return Failure(step.error); }
        DropTwice(content, index, index + step.value.0);
        rest := rest[step.value.0..];
        index, seen, current := index + step.value.0, seen + {step.value.1}, step.value.2;
      }
      return Success(current);
    }

    /** One round of the loop: parse the next edge, refuse a repeated name, follow the edge. */
    method VisitNext(rest: Text, seen: set<Text>, prefix: Text, scan: Scan, fuel: nat) returns (r: Result<(nat, Text, Scan), Refusal>)
      requires rest != [] && CacheIsVerified()
      modifies this`cache
      ensures CacheIsVerified()
      ensures r.Failure? ==> Walk(objects, width, fuel, rest, seen, prefix, scan) == Failure(r.error)
      ensures r.Success? ==>
                && 0 < r.value.0 <= |rest|
                && Walk(objects, width, fuel, rest, seen, prefix, scan)
                   == Walk(objects, width, fuel, rest[r.value.0..], seen + {r.value.1}, prefix, r.value.2)
      decreases fuel, 1
    {
      var parsed := ParseEntry(rest, width);
      if parsed.Failure? { return Failure(parsed.error); }
      var (entry, length) := parsed.value;
      if entry.name in seen { return Failure(TreeEdgeInvalid); }
      var next := VisitEdge(entry, prefix, scan, fuel);
      if next.Failure? { return Failure(next.error); }
      return Success((length, entry.name, next.value));
    }

    method VisitEdge(entry: Entry, prefix: Text, scan: Scan, fuel: nat) returns (r: Result<Scan, Refusal>)
      requires CacheIsVerified()
      modifies this`cache
      ensures CacheIsVerified() && r == Descend(objects, width, fuel, entry, prefix, scan)
      decreases fuel, 0
    {
      var path := prefix + entry.name;
      if !ValidPath(path) { return Failure(TreePathInvalid); }
      if entry.mode == Directory {
        if fuel == 0 { return Failure(RecursionExhausted); }
        r := VisitTree(entry.child, path + [SLASH], scan, fuel - 1);
      } else {
        if path in scan.output { return Failure(TreeDuplicatePath); }
        var blob := ReadObject(entry.child, Blob);
        if blob.Failure? { return Failure(blob.error); }
        return Success(Leaf(entry, path, scan));
      }
    }

    /** `tree`. */
    method ReadTree(oid: Oid, fuel: nat) returns (r: Result<Scan, Refusal>)
      requires CacheIsVerified()
      modifies this`cache
      ensures CacheIsVerified() && r == Visit(objects, width, fuel, oid, [], Scan(map[], 0))
    {
      r := VisitTree(oid, [], Scan(map[], 0), fuel);
    }
  }

  // ---- The tree encoding and its inverse ----------------------------------------------------

  function EncodeEntry(e: Entry): Text {
    ModeText(e.mode) + [SPACE] + e.name + [NUL] + e.child
  }

  function Encode(es: seq<Entry>): Text {
    if es == [] then [] else EncodeEntry(es[0]) + Encode(es[1..])
  }

  predicate WellFormedText(e: Entry) { ValidName(e.name) && NUL !in e.name }

  predicate WellFormed(e: Entry, width: nat) { WellFormedText(e) && |e.child| == width }

  lemma ModeTextInverse(m: Mode)
    ensures ModeOf(ModeText(m)) == Some(m) && ModeText(m) != []
    ensures SPACE !in ModeText(m) && NUL !in ModeText(m)
  {}

  lemma {:induction false} FindFirst(front: Text, b: Byte, back: Text)
    requires b !in front
    ensures Find(front + [b] + back, b) == |front|
  {
    if front != [] {
      assert (front + [b] + back)[0] == front[0] && front[0] in front;
      assert (front + [b] + back)[1..] == front[1..] + [b] + back;
      FindFirst(front[1..], b, back);
    }
  }

  lemma FindEncoded(e: Entry, back: Text)
    requires WellFormedText(e)
    ensures Find(EncodeEntry(e) + back, SPACE) == |ModeText(e.mode)|
    ensures Find(EncodeEntry(e) + back, NUL) == |ModeText(e.mode)| + 1 + |e.name|
  {
    var m, t := ModeText(e.mode), EncodeEntry(e) + back;
    ModeTextInverse(e.mode);
    var afterSpace, front := e.name + [NUL] + e.child + back, m + [SPACE] + e.name;
    assert t == m + [SPACE] + afterSpace;
    FindFirst(m, SPACE, afterSpace);
    assert t == front + [NUL] + (e.child + back);
    FindFirst(front, NUL, e.child + back);
  }

  lemma EncodedCuts(m: Text, name: Text, child: Text, back: Text)
    ensures var t := m + [SPACE] + name + [NUL] + child + back;
            var nul := |m| + 1 + |name|;
            t[..|m|] == m && t[|m| + 1..nul] == name && t[nul + 1..nul + 1 + |child|] == child
  {}

  /** Parsing what was encoded gives back the edge and exactly its bytes. */
  lemma ParseEncoded(e: Entry, back: Text, width: nat)
    requires WellFormed(e, width)
    ensures ParseEntry(EncodeEntry(e) + back, width) == Success((e, |EncodeEntry(e)|))
  {
    ModeTextInverse(e.mode);
    FindEncoded(e, back);
    EncodedCuts(ModeText(e.mode), e.name, e.child, back);
  }

  /** Whatever parses is the encoding of the edge it parses to. */
  lemma CutAt(rest: Text, a: nat, b: nat, c: nat)
    requires a < b < c <= |rest|
    ensures rest == rest[..a] + [rest[a]] + rest[a + 1..b] + [rest[b]] + rest[b + 1..c] + rest[c..]
  {}

  lemma ModeOfInverse(t: Text)
    ensures ModeOf(t).Some? ==> ModeText(ModeOf(t).value) == t
  {}

  lemma ParsedIsEncoded(rest: Text, width: nat)
    requires ParseEntry(rest, width).Success?
    ensures var (e, length) := ParseEntry(rest, width).value;
            WellFormed(e, width) && rest == EncodeEntry(e) + rest[length..]
  {
    var (e, length) := ParseEntry(rest, width).value;
    var space, nul := Find(rest, SPACE), Find(rest, NUL);
    ModeOfInverse(rest[..space]);
    CutAt(rest, space, nul, length);
    assert EncodeEntry(e) == rest[..space] + [rest[space]] + rest[space + 1..nul] + [rest[nul]] + rest[nul + 1..length];
    forall k | 0 <= k < |e.name| ensures e.name[k] != NUL {
      assert e.name[k] == rest[space + 1 + k];
    }
  }

  // ---- Whole trees --------------------------------------------------------------------------

  /** A git tree at any nesting. */
  datatype Node = File(mode: Mode, oid: Oid) | Sub(oid: Oid, edges: seq<Edge>)
  datatype Edge = Edge(name: Text, node: Node)

  function EntryOf(e: Edge): Entry {
    match e.node
    case File(mode, oid) => Entry(mode, e.name, oid)
    case Sub(oid, _) => Entry(Directory, e.name, oid)
  }

  function EntriesOf(edges: seq<Edge>): seq<Entry> {
    if edges == [] then [] else [EntryOf(edges[0])] + EntriesOf(edges[1..])
  }

  function NamesOf(edges: seq<Edge>): set<Text> {
    if edges == [] then {} else {edges[0].name} + NamesOf(edges[1..])
  }

  /** The edges form a directory that git can hold and the reader admits below `prefix`, and
      the object store holds it, with everything under it. */
  ghost predicate Stored(objects: Objects, width: nat, prefix: Text, edges: seq<Edge>)
    decreases edges
  {
    edges == [] ||
    (edges[0].name !in NamesOf(edges[1..]) && StoredEdge(objects, width, prefix, edges[0]) && Stored(objects, width, prefix, edges[1..]))
  }

  ghost predicate StoredEdge(objects: Objects, width: nat, prefix: Text, edge: Edge)
    decreases edge
  {
    && WellFormed(EntryOf(edge), width)
    && ValidPath(prefix + edge.name)
    && match edge.node
       case File(mode, oid) => mode != Directory && Typed(objects, oid, Blob).Success?
       case Sub(oid, edges) =>
         && Typed(objects, oid, Tree) == Success(Encode(EntriesOf(edges)))
         && Stored(objects, width, prefix + edge.name + [SLASH], edges)
  }

  function Height(edges: seq<Edge>): nat
    decreases edges
  {
    if edges == [] then 0 else
    var here, rest := HeightAt(edges[0]), Height(edges[1..]);
    if here < rest then rest else here
  }

  function HeightAt(edge: Edge): nat
    decreases edge
  {
    match edge.node case File(_, _) => 0 case Sub(_, edges) => 1 + Height(edges)
  }

  datatype LeafRow = LeafRow(path: Text, mode: Mode, oid: Oid)

  /** Every leaf that is not a symlink, by full path, in the order of the walk. */
  function Leaves(prefix: Text, edges: seq<Edge>): seq<LeafRow>
    decreases edges
  {
    if edges == [] then [] else LeavesAt(prefix, edges[0]) + Leaves(prefix, edges[1..])
  }

  function LeavesAt(prefix: Text, edge: Edge): seq<LeafRow>
    decreases edge
  {
    match edge.node
    case File(mode, oid) => if mode == Symlink then [] else [LeafRow(prefix + edge.name, mode, oid)]
    case Sub(_, edges) => Leaves(prefix + edge.name + [SLASH], edges)
  }

  function Symlinks(edges: seq<Edge>): nat
    decreases edges
  {
    if edges == [] then 0 else SymlinksAt(edges[0]) + Symlinks(edges[1..])
  }

  function SymlinksAt(edge: Edge): nat
    decreases edge
  {
    match edge.node
    case File(mode, _) => if mode == Symlink then 1 else 0
    case Sub(_, edges) => Symlinks(edges)
  }

  function Record(output: map<Text, (Mode, Oid)>, leaves: seq<LeafRow>): map<Text, (Mode, Oid)>
    decreases |leaves|
  {
    if leaves == [] then output else Record(output[leaves[0].path := (leaves[0].mode, leaves[0].oid)], leaves[1..])
  }

  lemma {:induction false} RecordAppend(output: map<Text, (Mode, Oid)>, a: seq<LeafRow>, b: seq<LeafRow>)
    ensures Record(output, a + b) == Record(Record(output, a), b)
    decreases |a|
  {
    if a == [] {
      assert a + b == b;
    } else {
      assert (a + b)[1..] == a[1..] + b;
      RecordAppend(output[a[0].path := (a[0].mode, a[0].oid)], a[1..], b);
    }
  }

  // ---- Paths below different names never meet ------------------------------------------------

  /** `path` is `prefix + name` or lies below it. */
  predicate Below(path: Text, prefix: Text, name: Text) {
    path == prefix + name || prefix + name + [SLASH] <= path
  }

  lemma BelowNoLonger(path: Text, prefix: Text, a: Text, b: Text)
    requires Below(path, prefix, a) && Below(path, prefix, b) && SLASH !in b
    ensures |b| <= |a|
  {
    var p := |prefix|;
    assert path[p..p + |b|] == b;
    if b != [] {
      var i := if |a| < |b| then |a| else 0;
      assert path[p + i] == b[i] && b[i] in b;
      if path != prefix + a {
        assert (prefix + a + [SLASH])[p + |a|] == path[p + |a|];
      }
    }
  }

  lemma BelowOneName(path: Text, prefix: Text, a: Text, b: Text)
    requires Below(path, prefix, a) && Below(path, prefix, b)
    requires SLASH !in a && SLASH !in b
    ensures a == b
  {
    BelowNoLonger(path, prefix, a, b);
    BelowNoLonger(path, prefix, b, a);
    var p := |prefix|;
    assert path[p..p + |a|] == a && path[p..p + |b|] == b;
  }

  /** Recorded paths under `prefix` all lie below names already seen there. */
  ghost predicate OnlyBelow(output: map<Text, (Mode, Oid)>, prefix: Text, seen: set<Text>) {
    forall path :: path in output && prefix <= path ==> exists n :: n in seen && Below(path, prefix, n)
  }

  ghost predicate SlashFree(names: set<Text>) { forall n :: n in names ==> SLASH !in n }

  /** The walk only adds, and only under its own prefix. */
  ghost predicate Extends(before: map<Text, (Mode, Oid)>, after: map<Text, (Mode, Oid)>, prefix: Text) {
    && (forall path :: path in before ==> path in after && after[path] == before[path])
    && (forall path :: path in after && path !in before ==> prefix <= path)
  }

  lemma UnseenIsFresh(output: map<Text, (Mode, Oid)>, prefix: Text, seen: set<Text>, name: Text)
    requires OnlyBelow(output, prefix, seen) && SlashFree(seen) && name !in seen && SLASH !in name
    ensures prefix + name !in output
    ensures OnlyBelow(output, prefix + name + [SLASH], {})
  {
    forall path | path in output && (path == prefix + name || prefix + name + [SLASH] <= path) ensures false {
      assert prefix <= path;
      var n :| n in seen && Below(path, prefix, n);
      BelowOneName(path, prefix, n, name);
    }
  }

  lemma SeenCoversNew(before: map<Text, (Mode, Oid)>, after: map<Text, (Mode, Oid)>, prefix: Text, seen: set<Text>, name: Text)
    requires OnlyBelow(before, prefix, seen)
    requires forall path :: path in after && path !in before ==> Below(path, prefix, name)
    ensures OnlyBelow(after, prefix, seen + {name})
  {
    forall path | path in after && prefix <= path ensures exists n :: n in seen + {name} && Below(path, prefix, n) {
      if path in before {
        var n :| n in seen && Below(path, prefix, n);
        assert n in seen + {name};
      } else {
        assert name in seen + {name};
      }
    }
  }

  lemma {:induction false} DescendIsFresh(objects: Objects, width: nat, fuel: nat, entry: Entry, prefix: Text, scan: Scan, seen: set<Text>)
    requires OnlyBelow(scan.output, prefix, seen) && SlashFree(seen) && entry.name !in seen && SLASH !in entry.name
    ensures var r := Descend(objects, width, fuel, entry, prefix, scan);
            && r != Failure(TreeDuplicatePath)
            && (r.Success? ==> Extends(scan.output, r.value.output, prefix)
                               && OnlyBelow(r.value.output, prefix, seen + {entry.name}))
    decreases fuel, 0, 0
  {
    var path := prefix + entry.name;
    var r := Descend(objects, width, fuel, entry, prefix, scan);
    UnseenIsFresh(scan.output, prefix, seen, entry.name);
    if entry.mode == Directory && fuel > 0 {
      VisitIsFresh(objects, width, fuel - 1, entry.child, path + [SLASH], scan);
    }
    if r.Success? {
      assert prefix <= path && prefix <= path + [SLASH];
      SeenCoversNew(scan.output, r.value.output, prefix, seen, entry.name);
    }
  }

  lemma {:induction false} WalkIsFresh(objects: Objects, width: nat, fuel: nat, rest: Text, seen: set<Text>, prefix: Text, scan: Scan)
    requires OnlyBelow(scan.output, prefix, seen) && SlashFree(seen)
    ensures var r := Walk(objects, width, fuel, rest, seen, prefix, scan);
            && r != Failure(TreeDuplicatePath)
            && (r.Success? ==> Extends(scan.output, r.value.output, prefix))
    decreases fuel, 0, |rest|
  {
    if rest != [] && ParseEntry(rest, width).Success? {
      var (entry, length) := ParseEntry(rest, width).value;
      if entry.name !in seen {
        DescendIsFresh(objects, width, fuel, entry, prefix, scan, seen);
        var next := Descend(objects, width, fuel, entry, prefix, scan);
        if next.Success? {
          WalkIsFresh(objects, width, fuel, rest[length..], seen + {entry.name}, prefix, next.value);
        }
      }
    }
  }

  lemma {:induction false} VisitIsFresh(objects: Objects, width: nat, fuel: nat, oid: Oid, prefix: Text, scan: Scan)
    requires OnlyBelow(scan.output, prefix, {})
    ensures var r := Visit(objects, width, fuel, oid, prefix, scan);
            && r != Failure(TreeDuplicatePath)
            && (r.Success? ==> Extends(scan.output, r.value.output, prefix))
    decreases fuel, 1, 0
  {
    if Typed(objects, oid, Tree).Success? {
      WalkIsFresh(objects, width, fuel, Typed(objects, oid, Tree).value, {}, prefix, scan);
    }
  }

  /** The duplicate-path refusal is unreachable, over every object store, cyclic ones included. */
  lemma DuplicatePathUnreachable(objects: Objects, width: nat, fuel: nat, oid: Oid)
    ensures Visit(objects, width, fuel, oid, [], Scan(map[], 0)) != Failure(TreeDuplicatePath)
  {
    VisitIsFresh(objects, width, fuel, oid, [], Scan(map[], 0));
  }

  // ---- The reader inverts the encoding --------------------------------------------------------

  function Found(scan: Scan, leaves: seq<LeafRow>, symlinks: nat): Scan {
    Scan(Record(scan.output, leaves), scan.symlinks + symlinks)
  }

  lemma FoundAppend(scan: Scan, a: seq<LeafRow>, n: nat, b: seq<LeafRow>, m: nat)
    ensures Found(Found(scan, a, n), b, m) == Found(scan, a + b, n + m)
  {
    RecordAppend(scan.output, a, b);
  }

  lemma WalkStep(objects: Objects, width: nat, fuel: nat, prefix: Text, e: Entry, rest: Text, back: Text, seen: set<Text>, scan: Scan,
                 next: Scan, end: Scan)
    requires WellFormed(e, width) && e.name !in seen && rest == EncodeEntry(e) + back
    requires Descend(objects, width, fuel, e, prefix, scan) == Success(next)
    requires Walk(objects, width, fuel, back, seen + {e.name}, prefix, next) == Success(end)
    ensures Walk(objects, width, fuel, rest, seen, prefix, scan) == Success(end)
  {
    ParseEncoded(e, back, width);
    assert rest[|EncodeEntry(e)|..] == back;
  }

  lemma EncodeHead(edges: seq<Edge>)
    requires edges != []
    ensures Encode(EntriesOf(edges)) == EncodeEntry(EntryOf(edges[0])) + Encode(EntriesOf(edges[1..]))
  {
    assert EntriesOf(edges)[1..] == EntriesOf(edges[1..]);
  }

  /** The state in which a directory, or the rest of one, may be walked. */
  ghost predicate Open(scan: Scan, prefix: Text, seen: set<Text>) {
    SlashFree(seen) && OnlyBelow(scan.output, prefix, seen)
  }

  ghost predicate Inverted(objects: Objects, width: nat, fuel: nat, prefix: Text, edges: seq<Edge>, seen: set<Text>, scan: Scan) {
    Walk(objects, width, fuel, Encode(EntriesOf(edges)), seen, prefix, scan)
    == Success(Found(scan, Leaves(prefix, edges), Symlinks(edges)))
  }

  lemma NothingInverted(objects: Objects, width: nat, fuel: nat, prefix: Text, edges: seq<Edge>, seen: set<Text>, scan: Scan)
    requires edges == []
    ensures Inverted(objects, width, fuel, prefix, edges, seen, scan)
  {
    assert Encode(EntriesOf(edges)) == [] && Found(scan, [], 0) == scan;
  }

  lemma HeadInverted(objects: Objects, width: nat, fuel: nat, prefix: Text, edges: seq<Edge>, seen: set<Text>, scan: Scan, next: Scan)
    requires edges != [] && WellFormed(EntryOf(edges[0]), width) && edges[0].name !in seen
    requires next == Found(scan, LeavesAt(prefix, edges[0]), SymlinksAt(edges[0]))
    requires Descend(objects, width, fuel, EntryOf(edges[0]), prefix, scan) == Success(next)
    requires Inverted(objects, width, fuel, prefix, edges[1..], seen + {edges[0].name}, next)
    ensures Inverted(objects, width, fuel, prefix, edges, seen, scan)
  {
    EncodeHead(edges);
    var all, links := Leaves(prefix, edges), Symlinks(edges);
    var end := Found(scan, all, links);
    FoundAppend(scan, LeavesAt(prefix, edges[0]), SymlinksAt(edges[0]), Leaves(prefix, edges[1..]), Symlinks(edges[1..]));
    assert Found(next, Leaves(prefix, edges[1..]), Symlinks(edges[1..])) == end;
    WalkStep(objects, width, fuel, prefix, EntryOf(edges[0]), Encode(EntriesOf(edges)), Encode(EntriesOf(edges[1..])), seen, scan, next, end);
  }

  lemma {:induction false} WalkInverts(objects: Objects, width: nat, fuel: nat, prefix: Text, edges: seq<Edge>, seen: set<Text>, scan: Scan)
    requires Stored(objects, width, prefix, edges) && Height(edges) <= fuel
    requires seen !! NamesOf(edges) && Open(scan, prefix, seen)
    ensures Inverted(objects, width, fuel, prefix, edges, seen, scan)
    decreases fuel, edges, 1
  {
    if edges == [] {
      NothingInverted(objects, width, fuel, prefix, edges, seen, scan);
    } else {
      var next := DescendInverts(objects, width, fuel, prefix, edges[0], seen, scan);
      DescendIsFresh(objects, width, fuel, EntryOf(edges[0]), prefix, scan, seen);
      WalkInverts(objects, width, fuel, prefix, edges[1..], seen + {edges[0].name}, next);
      HeadInverted(objects, width, fuel, prefix, edges, seen, scan, next);
    }
  }

  lemma {:induction false} DescendInverts(objects: Objects, width: nat, fuel: nat, prefix: Text, edge: Edge, seen: set<Text>, scan: Scan) returns (next: Scan)
    requires StoredEdge(objects, width, prefix, edge) && HeightAt(edge) <= fuel
    requires edge.name !in seen && Open(scan, prefix, seen)
    ensures next == Found(scan, LeavesAt(prefix, edge), SymlinksAt(edge))
    ensures Descend(objects, width, fuel, EntryOf(edge), prefix, scan) == Success(next)
    decreases fuel, edge, 0
  {
    next := Found(scan, LeavesAt(prefix, edge), SymlinksAt(edge));
    UnseenIsFresh(scan.output, prefix, seen, edge.name);
    match edge.node {
      case File(mode, oid) =>
        LeafInverts(objects, width, fuel, prefix, edge, scan);
      case Sub(oid, edges) =>
        WalkInverts(objects, width, fuel - 1, prefix + edge.name + [SLASH], edges, {}, scan);
        SubInverts(objects, width, fuel, prefix, edge, scan);
    }
  }

  lemma LeafInverts(objects: Objects, width: nat, fuel: nat, prefix: Text, edge: Edge, scan: Scan)
    requires StoredEdge(objects, width, prefix, edge) && edge.node.File? && prefix + edge.name !in scan.output
    ensures Descend(objects, width, fuel, EntryOf(edge), prefix, scan) == Success(Found(scan, LeavesAt(prefix, edge), SymlinksAt(edge)))
  {
    var leaves, e, path := LeavesAt(prefix, edge), EntryOf(edge), prefix + edge.name;
    assert leaves != [] ==> leaves[1..] == [];
    assert Descend(objects, width, fuel, e, prefix, scan) == Success(Leaf(e, path, scan));
    assert e.mode == Symlink ==> Record(scan.output, leaves) == scan.output;
    assert e.mode != Symlink ==> Record(scan.output, leaves) == scan.output[path := (e.mode, e.child)];
    assert SymlinksAt(edge) == if e.mode == Symlink then 1 else 0;
  }

  lemma SubInverts(objects: Objects, width: nat, fuel: nat, prefix: Text, edge: Edge, scan: Scan)
    requires StoredEdge(objects, width, prefix, edge) && edge.node.Sub? && fuel > 0
    requires Inverted(objects, width, fuel - 1, prefix + edge.name + [SLASH], edge.node.edges, {}, scan)
    ensures Descend(objects, width, fuel, EntryOf(edge), prefix, scan) == Success(Found(scan, LeavesAt(prefix, edge), SymlinksAt(edge)))
  {
    var path, content := prefix + edge.name + [SLASH], Encode(EntriesOf(edge.node.edges));
    assert Visit(objects, width, fuel - 1, edge.node.oid, path, scan) == Walk(objects, width, fuel - 1, content, {}, path, scan);
  }

  predicate DistinctPaths(leaves: seq<LeafRow>) {
    forall i, j :: 0 <= i < j < |leaves| ==> leaves[i].path != leaves[j].path
  }

  /** The leaves of a directory lie below its names, each below its own, so no two share a path. */
  lemma {:induction false} LeavesBelow(objects: Objects, width: nat, prefix: Text, edges: seq<Edge>)
    requires Stored(objects, width, prefix, edges)
    ensures forall l :: l in Leaves(prefix, edges) ==> exists n :: n in NamesOf(edges) && SLASH !in n && Below(l.path, prefix, n)
    ensures DistinctPaths(Leaves(prefix, edges))
    decreases edges, 1
  {
    if edges != [] {
      var here, there := LeavesAt(prefix, edges[0]), Leaves(prefix, edges[1..]);
      LeavesAtBelow(objects, width, prefix, edges[0]);
      LeavesBelow(objects, width, prefix, edges[1..]);
      forall l: LeafRow | l in here + there ensures exists n :: n in NamesOf(edges) && SLASH !in n && Below(l.path, prefix, n) {
        if l in here {
          assert edges[0].name in NamesOf(edges);
        } else {
          var n :| n in NamesOf(edges[1..]) && SLASH !in n && Below(l.path, prefix, n);
          assert n in NamesOf(edges);
        }
      }
      forall l, m | l in here && m in there ensures l.path != m.path {
        var n :| n in NamesOf(edges[1..]) && SLASH !in n && Below(m.path, prefix, n);
        if l.path == m.path { BelowOneName(l.path, prefix, edges[0].name, n); }
      }
      DistinctConcat(here, there);
    }
  }

  lemma DistinctConcat(a: seq<LeafRow>, b: seq<LeafRow>)
    requires DistinctPaths(a) && DistinctPaths(b)
    requires forall l, m :: l in a && m in b ==> l.path != m.path
    ensures DistinctPaths(a + b)
  {
    var c := a + b;
    forall i, j | 0 <= i < j < |c| ensures c[i].path != c[j].path {
      assert i < |a| ==> c[i] in a;
      assert j >= |a| ==> c[j] in b;
    }
  }

  lemma {:induction false} LeavesAtBelow(objects: Objects, width: nat, prefix: Text, edge: Edge)
    requires StoredEdge(objects, width, prefix, edge)
    ensures forall l :: l in LeavesAt(prefix, edge) ==> Below(l.path, prefix, edge.name)
    ensures DistinctPaths(LeavesAt(prefix, edge))
    decreases edge, 0
  {
    match edge.node {
      case File(_, _) =>
      case Sub(_, edges) =>
        var path := prefix + edge.name + [SLASH];
        LeavesBelow(objects, width, path, edges);
        forall l | l in LeavesAt(prefix, edge) ensures Below(l.path, prefix, edge.name) {
          var n :| n in NamesOf(edges) && Below(l.path, path, n);
          assert path <= l.path;
        }
    }
  }

  lemma {:induction false} RecordIsTable(leaves: seq<LeafRow>, output: map<Text, (Mode, Oid)>)
    requires DistinctPaths(leaves) && forall l :: l in leaves ==> l.path !in output
    ensures forall l :: l in leaves ==> l.path in Record(output, leaves) && Record(output, leaves)[l.path] == (l.mode, l.oid)
    ensures forall p :: p in Record(output, leaves) ==> p in output || exists l :: l in leaves && l.path == p
    ensures forall p :: p in output ==> p in Record(output, leaves) && Record(output, leaves)[p] == output[p]
    decreases |leaves|
  {
    if leaves != [] {
      var next := output[leaves[0].path := (leaves[0].mode, leaves[0].oid)];
      forall l | l in leaves[1..] ensures l.path !in next {
        var j :| 0 <= j < |leaves[1..]| && leaves[1..][j] == l;
        assert leaves[0].path != leaves[j + 1].path;
      }
      forall i, j | 0 <= i < j < |leaves[1..]| ensures leaves[1..][i].path != leaves[1..][j].path {
        assert leaves[i + 1].path != leaves[j + 1].path;
      }
      RecordIsTable(leaves[1..], next);
      assert leaves == [leaves[0]] + leaves[1..];
    }
  }

  /** For a stored tree of any nesting the recursion limit admits, the reader returns exactly
      the leaves that are not symlinks, by full path, and the number of the symlinks. */
  lemma ReaderInvertsEncoding(objects: Objects, width: nat, fuel: nat, oid: Oid, edges: seq<Edge>)
    requires Typed(objects, oid, Tree) == Success(Encode(EntriesOf(edges)))
    requires Stored(objects, width, [], edges) && Height(edges) <= fuel
    ensures var r := Visit(objects, width, fuel, oid, [], Scan(map[], 0));
            && r.Success?
            && r.value.symlinks == Symlinks(edges)
            && DistinctPaths(Leaves([], edges))
            && (forall l :: l in Leaves([], edges) ==> l.path in r.value.output && r.value.output[l.path] == (l.mode, l.oid))
            && (forall p :: p in r.value.output ==> exists l :: l in Leaves([], edges) && l.path == p)
  {
    WalkInverts(objects, width, fuel, [], edges, {}, Scan(map[], 0));
    LeavesBelow(objects, width, [], edges);
    RecordIsTable(Leaves([], edges), map[]);
  }

  // ---- What one accepted tree object is -------------------------------------------------------

  /** All the edges of one tree object, when every byte of it parses. */
  function Parse(rest: Text, width: nat): Result<seq<Entry>, Refusal>
    decreases |rest|
  {
    if rest == [] then Success([]) else
    match ParseEntry(rest, width)
    case Failure(e) => Failure(e)
    case Success((entry, length)) =>
      match Parse(rest[length..], width)
      case Failure(e) => Failure(e)
      case Success(es) => Success([entry] + es)
  }

  predicate AllWellFormed(es: seq<Entry>, width: nat) { forall e :: e in es ==> WellFormed(e, width) }

  lemma EncodeOne(e: Entry, rest: seq<Entry>)
    ensures Encode([e] + rest) == EncodeEntry(e) + Encode(rest)
  {
    assert ([e] + rest)[1..] == rest;
  }

  lemma {:induction false} ParsedAreEncoded(rest: Text, width: nat)
    requires Parse(rest, width).Success?
    ensures rest == Encode(Parse(rest, width).value) && AllWellFormed(Parse(rest, width).value, width)
    decreases |rest|
  {
    if rest != [] {
      var (e, length) := ParseEntry(rest, width).value;
      ParsedIsEncoded(rest, width);
      ParsedAreEncoded(rest[length..], width);
      EncodeOne(e, Parse(rest[length..], width).value);
    }
  }

  lemma {:induction false} EncodedAreParsed(es: seq<Entry>, width: nat)
    requires AllWellFormed(es, width)
    ensures Parse(Encode(es), width) == Success(es)
  {
    if es != [] {
      var e, back := es[0], Encode(es[1..]);
      assert e in es;
      ParseEncoded(e, back, width);
      EncodedAreParsed(es[1..], width);
      assert (EncodeEntry(e) + back)[|EncodeEntry(e)|..] == back && [e] + es[1..] == es;
    }
  }

  /** Parsing and encoding are inverse, and parsing consumes every byte. */
  lemma ParseInvertsEncode(rest: Text, es: seq<Entry>, width: nat)
    ensures Parse(rest, width) == Success(es) <==> rest == Encode(es) && AllWellFormed(es, width)
  {
    if Parse(rest, width).Success? { ParsedAreEncoded(rest, width); }
    if AllWellFormed(es, width) { EncodedAreParsed(es, width); }
  }

  /** A tree object the reader gets through is the encoding of well-formed edges, to the last byte. */
  lemma {:induction false} WalkConsumesEveryByte(objects: Objects, width: nat, fuel: nat, rest: Text, seen: set<Text>, prefix: Text, scan: Scan)
    requires Walk(objects, width, fuel, rest, seen, prefix, scan).Success?
    ensures Parse(rest, width).Success? && rest == Encode(Parse(rest, width).value)
    decreases |rest|
  {
    if rest != [] {
      var (entry, length) := ParseEntry(rest, width).value;
      var next := Descend(objects, width, fuel, entry, prefix, scan).value;
      WalkConsumesEveryByte(objects, width, fuel, rest[length..], seen + {entry.name}, prefix, next);
      ParseInvertsEncode(rest, Parse(rest, width).value, width);
    }
  }

  // ---- What an accepted tree is, at every nesting ----------------------------------------------

  lemma PutFirst(edge: Edge, rest: seq<Edge>)
    ensures Encode(EntriesOf([edge] + rest)) == EncodeEntry(EntryOf(edge)) + Encode(EntriesOf(rest))
    ensures NamesOf([edge] + rest) == {edge.name} + NamesOf(rest)
    ensures Height([edge] + rest) == if HeightAt(edge) < Height(rest) then Height(rest) else HeightAt(edge)
  {
    var all := [edge] + rest;
    assert all[0] == edge && all[1..] == rest;
    EncodeHead(all);
  }

  lemma StoredFirst(objects: Objects, width: nat, prefix: Text, edge: Edge, rest: seq<Edge>)
    requires edge.name !in NamesOf(rest) && StoredEdge(objects, width, prefix, edge) && Stored(objects, width, prefix, rest)
    ensures Stored(objects, width, prefix, [edge] + rest)
  {
    var all := [edge] + rest;
    assert all[0] == edge && all[1..] == rest;
  }

  /** A walk that succeeds has read the encoding of a stored directory, whatever it had recorded before. */
  lemma {:induction false} WalkIsStored(objects: Objects, width: nat, fuel: nat, rest: Text, seen: set<Text>, prefix: Text, scan: Scan)
    returns (edges: seq<Edge>)
    requires Walk(objects, width, fuel, rest, seen, prefix, scan).Success?
    ensures rest == Encode(EntriesOf(edges)) && Stored(objects, width, prefix, edges) && Height(edges) <= fuel && seen !! NamesOf(edges)
    decreases fuel, 0, |rest|
  {
    if rest == [] {
      edges := [];
    } else {
      var (entry, length) := ParseEntry(rest, width).value;
      ParsedIsEncoded(rest, width);
      var edge := DescendIsStored(objects, width, fuel, entry, prefix, scan);
      var next := Descend(objects, width, fuel, entry, prefix, scan).value;
      var others := WalkIsStored(objects, width, fuel, rest[length..], seen + {entry.name}, prefix, next);
      edges := [edge] + others;
      PutFirst(edge, others);
      StoredFirst(objects, width, prefix, edge, others);
    }
  }

  lemma {:induction false} DescendIsStored(objects: Objects, width: nat, fuel: nat, entry: Entry, prefix: Text, scan: Scan) returns (edge: Edge)
    requires Descend(objects, width, fuel, entry, prefix, scan).Success? && WellFormed(entry, width)
    ensures EntryOf(edge) == entry && edge.name == entry.name && StoredEdge(objects, width, prefix, edge) && HeightAt(edge) <= fuel
    decreases fuel, 0, 0
  {
    if entry.mode == Directory {
      var content := Typed(objects, entry.child, Tree).value;
      var edges := WalkIsStored(objects, width, fuel - 1, content, {}, prefix + entry.name + [SLASH], scan);
      edge := Edge(entry.name, Sub(entry.child, edges));
    } else {
      edge := Edge(entry.name, File(entry.mode, entry.child));
    }
  }

  /** The tree under `oid` is a stored directory that the recursion limit admits. */
  ghost predicate StoredTree(objects: Objects, width: nat, fuel: nat, oid: Oid, edges: seq<Edge>) {
    Typed(objects, oid, Tree) == Success(Encode(EntriesOf(edges))) && Stored(objects, width, [], edges) && Height(edges) <= fuel
  }

  /** The reader gets through exactly the trees that are the encoding, byte for byte and at every nesting, of
      a directory git can hold with everything under it stored. */
  lemma ReaderAcceptsStoredTrees(objects: Objects, width: nat, fuel: nat, oid: Oid)
    ensures Visit(objects, width, fuel, oid, [], Scan(map[], 0)).Success? <==> exists edges :: StoredTree(objects, width, fuel, oid, edges)
  {
    if Visit(objects, width, fuel, oid, [], Scan(map[], 0)).Success? {
      var content := Typed(objects, oid, Tree).value;
      var edges := WalkIsStored(objects, width, fuel, content, {}, [], Scan(map[], 0));
      assert StoredTree(objects, width, fuel, oid, edges);
    }
    if edges :| StoredTree(objects, width, fuel, oid, edges) {
      ReaderInvertsEncoding(objects, width, fuel, oid, edges);
    }
  }
}
