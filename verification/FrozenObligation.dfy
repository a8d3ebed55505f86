/** The frozen obligation: assembled by Stage 0 around a context projection
    (evaluator/stage0_production.py), checked again by the paired run (evaluator/pipeline.py). */
module FrozenObligation {
  import opened Wrappers
  import opened Ordering
  import opened Grouping
  import opened Stage0Contract
  import C = ContextProjection
  import W = WindowAlgebra

  /** A subject of the product's context, admitted with its requested range. */
  datatype RunSubject = RunSubject(role: string, endpoint: string, source: string, start: int, end: int, window: string)

  datatype RunContext = RunContext(obligation: string, id: string, snapshot: string, request: string, targets: seq<string>,
                                   subjects: seq<RunSubject>, paths: map<string, string>, latentState: string,
                                   capabilities: map<string, string>, qualifications: seq<string>, unknowns: seq<string>)

  /** `window_groups`: the range and role a window gathers from its subjects. */
  datatype Group = Group(source: string, path: string, blob: string, start: int, end: int, hasCallee: bool)

  datatype Row = Row(id: string, group: Group)

  datatype SubjectWindow = SubjectWindow(subject: string, window: string, role: string)
  datatype Reference = Reference(id: string, side: string, path: string, blob: string)

  datatype Obligation = Obligation(unit: string, obligations: seq<string>, relations: seq<string>, pairs: seq<C.Pair>,
                                   subjectWindows: seq<SubjectWindow>, sources: seq<W.Spec>, references: seq<Reference>,
                                   projection: C.Projection, scope: string)

  datatype FreezeError = ContractInvalid | SourceMissing | WindowConflict | ProjectionRefused(code: C.ContextError)

  predicate SubjectWindowLe(a: SubjectWindow, b: SubjectWindow) {
    if a.subject != b.subject then TextLe(a.subject, b.subject)
    else if a.window != b.window then TextLe(a.window, b.window)
    else TextLe(a.role, b.role)
  }

  predicate PairLe(a: C.Pair, b: C.Pair) {
    if a.caller != b.caller then TextLe(a.caller, b.caller) else TextLe(a.callee, b.callee)
  }

  lemma OrdersAreTotal()
    ensures TotalPreorder(SubjectWindowLe) && TotalPreorder(PairLe) && TotalPreorder(TextLe)
    ensures forall a, b :: SubjectWindowLe(a, b) && SubjectWindowLe(b, a) ==> a == b
  {
    TextLeIsTotalPreorder();
  }

  // ---- Window groups ------------------------------------------------------------------------------------

  function GroupFor(s: RunSubject, path: string, blob: string): Group {
    Group(s.source, path, blob, s.start, s.end, s.role == "callee")
  }

  function Widen(g: Group, s: RunSubject): Group {
    g.(start := Min(g.start, s.start), end := Max(g.end, s.end), hasCallee := g.hasCallee || s.role == "callee")
  }

  /** Subject `s` reads the file its group reads. */
  predicate SameFile(g: Group, s: RunSubject, paths: map<string, string>, head: map<string, string>) {
    g.source == s.source && s.source in paths && g.path == paths[s.source] && paths[s.source] in head && g.blob == head[paths[s.source]]
  }

  predicate InWindow(s: RunSubject, window: string) { s.window == window }

  /** The group is the hull of the window's subjects, and notes whether the callee is among them. */
  ghost predicate IsHull(g: Group, subjects: seq<RunSubject>, window: string, paths: map<string, string>, head: map<string, string>) {
    && (forall s :: s in subjects && InWindow(s, window) ==> SameFile(g, s, paths, head) && g.start <= s.start && s.end <= g.end)
    && (exists s :: s in subjects && InWindow(s, window) && s.start == g.start)
    && (exists s :: s in subjects && InWindow(s, window) && s.end == g.end)
    && (g.hasCallee <==> exists s :: s in subjects && InWindow(s, window) && s.role == "callee")
  }

  ghost predicate Hulls(groups: map<string, Group>, subjects: seq<RunSubject>, paths: map<string, string>, head: map<string, string>) {
    && (forall s :: s in subjects ==> s.window in groups)
    && (forall w :: w in groups ==> IsHull(groups[w], subjects, w, paths, head))
  }

  function WindowOf(s: RunSubject): string { s.window }

  lemma NewHull(done: seq<RunSubject>, s: RunSubject, paths: map<string, string>, head: map<string, string>)
    requires s.source in paths && paths[s.source] in head && forall x :: x in done ==> x.window != s.window
    ensures IsHull(GroupFor(s, paths[s.source], head[paths[s.source]]), done + [s], s.window, paths, head)
  {
    assert s in done + [s] && InWindow(s, s.window);
  }

  lemma WiderHull(g: Group, done: seq<RunSubject>, s: RunSubject, paths: map<string, string>, head: map<string, string>)
    requires IsHull(g, done, s.window, paths, head) && SameFile(g, s, paths, head)
    ensures IsHull(Widen(g, s), done + [s], s.window, paths, head)
  {
    var all := done + [s];
    var low :| low in done && InWindow(low, s.window) && low.start == g.start;
    var high :| high in done && InWindow(high, s.window) && high.end == g.end;
    assert s in all && low in all && high in all && InWindow(s, s.window);
    assert forall x :: x in done ==> x in all;
  }

  lemma OtherHull(g: Group, done: seq<RunSubject>, s: RunSubject, window: string, paths: map<string, string>, head: map<string, string>)
    requires IsHull(g, done, window, paths, head) && s.window != window
    ensures IsHull(g, done + [s], window, paths, head)
  {
    assert forall x :: x in done + [s] && InWindow(x, window) <==> x in done && InWindow(x, window);
  }

  predicate Known(s: RunSubject, paths: map<string, string>, head: map<string, string>) {
    s.source in paths && paths[s.source] in head
  }

  /** Every subject's file is known, and subjects of one window read one file. */
  predicate Groupable(subjects: seq<RunSubject>, paths: map<string, string>, head: map<string, string>) {
    && (forall s :: s in subjects ==> Known(s, paths, head))
    && (forall s, t :: s in subjects && t in subjects && s.window == t.window ==> s.source == t.source)
  }

  lemma HullsGrow(groups: map<string, Group>, done: seq<RunSubject>, s: RunSubject, g: Group, paths: map<string, string>, head: map<string, string>)
    requires Hulls(groups, done, paths, head) && IsHull(g, done + [s], s.window, paths, head)
    ensures Hulls(groups[s.window := g], done + [s], paths, head)
  {
    forall w | w in groups && w != s.window ensures IsHull(groups[w], done + [s], w, paths, head) {
      OtherHull(groups[w], done, s, w, paths, head);
    }
  }

  /** The window loop: groups widened in place. */
  method GroupWindows(subjects: seq<RunSubject>, paths: map<string, string>, head: map<string, string>) returns (r: Result<map<string, Group>, FreezeError>)
    ensures r.Success? <==> Groupable(subjects, paths, head)
    ensures r.Success? ==> Hulls(r.value, subjects, paths, head)
  {
    var groups: map<string, Group> := map[];
    for k := 0 to |subjects|
      invariant Hulls(groups, subjects[..k], paths, head) && Groupable(subjects[..k], paths, head)
    {
      var s := subjects[k];
      var next, g := GroupStep(subjects[..k], s, groups, paths, head);
      assert subjects[..k + 1] == subjects[..k] + [s];
      if next.Some? {
        NotGroupable(subjects, k + 1, paths, head);
        return Failure(next.value);
      }
      groups := groups[s.window := g];
    }
    assert subjects[..|subjects|] == subjects;
    return Success(groups);
  }

  lemma NotGroupable(subjects: seq<RunSubject>, k: nat, paths: map<string, string>, head: map<string, string>)
    requires k <= |subjects| && !Groupable(subjects[..k], paths, head)
    ensures !Groupable(subjects, paths, head)
  {
    assert forall s :: s in subjects[..k] ==> s in subjects;
  }

  /** One subject: its refusal, or its window's new group. */
  method GroupStep(ghost done: seq<RunSubject>, s: RunSubject, groups: map<string, Group>, paths: map<string, string>, head: map<string, string>)
    returns (refusal: Option<FreezeError>, g: Group)
    requires Hulls(groups, done, paths, head) && Groupable(done, paths, head)
    ensures refusal == None <==> Groupable(done + [s], paths, head)
    ensures refusal == None ==> Hulls(groups[s.window := g], done + [s], paths, head)
  {
    g := Group("", "", "", 0, 0, false);
    assert s in done + [s];
    if s.source !in paths { return Some(ContractInvalid), g; }
    if paths[s.source] !in head { return Some(SourceMissing), g; }
    g := GroupFor(s, paths[s.source], head[paths[s.source]]);
    if s.window !in groups {
      NewHull(done, s, paths, head);
    } else {
      var prior := groups[s.window];
      ghost var low :| low in done && InWindow(low, s.window) && low.start == prior.start;
      assert low in done + [s] && SameFile(prior, low, paths, head);
      if (prior.source, prior.path, prior.blob) != (g.source, g.path, g.blob) { return Some(WindowConflict), g; }
      g := Widen(prior, s);
      WiderHull(prior, done, s, paths, head);
    }
    HullsGrow(groups, done, s, g, paths, head);
    StillGroupable(done, s, groups, paths, head);
    return None, g;
  }

  lemma StillGroupable(done: seq<RunSubject>, s: RunSubject, groups: map<string, Group>, paths: map<string, string>, head: map<string, string>)
    requires Hulls(groups, done, paths, head) && Groupable(done, paths, head) && Known(s, paths, head)
    requires s.window in groups ==> groups[s.window].source == s.source
    ensures Groupable(done + [s], paths, head)
  {
    forall t | t in done && t.window == s.window ensures t.source == s.source {
      assert InWindow(t, s.window) && SameFile(groups[s.window], t, paths, head);
    }
  }

  // ---- Assembly -----------------------------------------------------------------------------------------

  function BodyOfGroup(g: Group): W.Window {
    W.Window(if g.hasCallee then W.Changed else W.Context, W.Head, g.path, g.start, g.end, g.blob)
  }

  function SpecOfRow(names: W.Naming): Row -> W.Spec { (r: Row) => W.Spec(names(BodyOfGroup(r.group)), BodyOfGroup(r.group)) }

  function WindowOfRow(names: W.Naming): Row -> C.ContextWindow {
    (r: Row) => C.ContextWindow(r.id, r.group.source, r.group.start, r.group.end, if r.group.hasCallee then "callee" else "caller",
                                names(BodyOfGroup(r.group)), [])
  }

  function SpecIdOf(s: W.Spec): string { s.requiredId }
  function SpecBodyOf(s: W.Spec): W.Window { s.body }
  function SourceIdOf(s: RunSubject): string { s.source }

  function RowsOver(groups: map<string, Group>, ids: seq<string>): seq<Row>
    requires forall k :: k in ids ==> k in groups
  {
    seq(|ids|, i requires 0 <= i < |ids| => Row(ids[i], groups[ids[i]]))
  }

  /** `sorted(window_groups)`, with the groups. */
  function RowsOf(groups: map<string, Group>, subjects: seq<RunSubject>): seq<Row> {
    var ids := Sort(Firsts(subjects, WindowOf), TextLe);
    if forall k :: k in ids ==> k in groups then RowsOver(groups, ids) else []
  }

  /** The loop over the sorted groups: a source and a window each. */
  method EmitRows(names: W.Naming, rows: seq<Row>) returns (sources: seq<W.Spec>, windows: seq<C.ContextWindow>)
    ensures sources == Map(rows, SpecOfRow(names)) && windows == Map(rows, WindowOfRow(names))
  {
    sources, windows := [], [];
    for k := 0 to |rows|
      invariant |sources| == |windows| == k
      invariant forall j :: 0 <= j < k ==> sources[j] == SpecOfRow(names)(rows[j]) && windows[j] == WindowOfRow(names)(rows[j])
    {
      var g := rows[k].group;
      var body := BodyOfGroup(g);
      sources := sources + [W.Spec(names(body), body)];
      windows := windows + [C.ContextWindow(rows[k].id, g.source, g.start, g.end, if g.hasCallee then "callee" else "caller", names(body), [])];
    }
  }

  function SubjectOf(s: RunSubject): C.Subject { C.Admitted(s.role, s.endpoint, s.source, s.start, s.end, s.window) }

  function SubjectWindowOf(s: RunSubject): SubjectWindow { SubjectWindow(s.endpoint, s.window, s.role) }

  function MaterializedAt(c: RunContext, head: map<string, string>): string -> C.Materialized {
    (source: string) => var path := if source in c.paths then c.paths[source] else "";
                        C.Materialized(source, "head", path, if path in head then head[path] else "")
  }

  function FirstWithRole(subjects: seq<RunSubject>, role: string): Option<RunSubject> {
    if subjects == [] then None else if subjects[0].role == role then Some(subjects[0]) else FirstWithRole(subjects[1..], role)
  }

  /** The capability states the projection keeps. */
  function OpenStates(states: map<string, string>): map<string, string> {
    map k | k in states && (states[k] == "partial" || states[k] == "unknown") :: states[k]
  }

  function InputsOf(c: RunContext, head: map<string, string>, pair: C.Pair, windows: seq<C.ContextWindow>): C.Inputs {
    var sources := Firsts(c.subjects, SourceIdOf);
    var files := Sort(sources, TextLe);
    C.Inputs(C.Identity(c.id, c.snapshot, c.request, [c.obligation], c.targets, [pair]), files, files, Map(c.subjects, SubjectOf),
             Map(sources, MaterializedAt(c, head)), [], windows, [],
             C.Latent(c.latentState, Some(C.LatentDetail(OpenStates(c.capabilities), c.qualifications))), Sort(c.unknowns, TextLe), [], [])
  }

  function ObligationOf(unit: string, c: RunContext, pair: C.Pair, sources: seq<W.Spec>, projection: C.Projection): Obligation {
    Obligation(unit, [c.obligation], c.targets, [pair], Sort(Map(c.subjects, SubjectWindowOf), SubjectWindowLe), Sort(sources, W.OutLe), [],
               projection, c.id)
  }

  /** What `_frozen_obligation` returns, and the groups it went through. */
  ghost predicate Frozen(h: C.Hashes, names: W.Naming, unit: string, c: RunContext, head: map<string, string>, groups: map<string, Group>, o: Obligation) {
    && Groupable(c.subjects, c.paths, head) && Hulls(groups, c.subjects, c.paths, head)
    && FirstWithRole(c.subjects, "caller").Some? && FirstWithRole(c.subjects, "callee").Some?
    && var pair := C.Pair(FirstWithRole(c.subjects, "caller").value.endpoint, FirstWithRole(c.subjects, "callee").value.endpoint);
       var rows := RowsOf(groups, c.subjects);
       var built := C.Build(h, InputsOf(c, head, pair, Map(rows, WindowOfRow(names))));
       built.Success? && o == ObligationOf(unit, c, pair, Map(rows, SpecOfRow(names)), built.value)
  }

  /** A group is the only hull of its window. */
  lemma HullIsUnique(g: Group, g': Group, subjects: seq<RunSubject>, window: string, paths: map<string, string>, head: map<string, string>)
    requires IsHull(g, subjects, window, paths, head) && IsHull(g', subjects, window, paths, head)
    ensures g == g'
  {
    var low, high :| low in subjects && high in subjects && InWindow(low, window) && InWindow(high, window) && low.start == g.start && high.end == g.end;
    var low', high' :| low' in subjects && high' in subjects && InWindow(low', window) && InWindow(high', window)
                       && low'.start == g'.start && high'.end == g'.end;
  }

  lemma HullsAreUnique(groups: map<string, Group>, groups': map<string, Group>, subjects: seq<RunSubject>, paths: map<string, string>, head: map<string, string>)
    requires Hulls(groups, subjects, paths, head) && Hulls(groups', subjects, paths, head)
    ensures groups == groups'
  {
    forall w | w in groups ensures w in groups' && groups[w] == groups'[w] {
      var s :| s in subjects && InWindow(s, w) && s.start == groups[w].start;
      HullIsUnique(groups[w], groups'[w], subjects, w, paths, head);
    }
    forall w | w in groups' ensures w in groups {
      var s :| s in subjects && InWindow(s, w) && s.start == groups'[w].start;
    }
  }

  /** `_frozen_obligation`: the one obligation there is to freeze, or a refusal when there is none. */
  method Freeze(h: C.Hashes, names: W.Naming, unit: string, c: RunContext, head: map<string, string>) returns (r: Result<Obligation, FreezeError>)
    ensures r.Success? ==> exists groups :: Frozen(h, names, unit, c, head, groups, r.value)
    ensures forall groups, o :: Frozen(h, names, unit, c, head, groups, o) ==> r == Success(o)
  {
    var caller, callee := FirstWithRole(c.subjects, "caller"), FirstWithRole(c.subjects, "callee");
    if caller == None || callee == None { return Failure(ContractInvalid); }
    var pair := C.Pair(caller.value.endpoint, callee.value.endpoint);
    var grouped := GroupWindows(c.subjects, c.paths, head);
    if grouped.Failure? { return Failure(grouped.error); }
    var rows := RowsOf(grouped.value, c.subjects);
    forall groups | Hulls(groups, c.subjects, c.paths, head) ensures groups == grouped.value {
      HullsAreUnique(groups, grouped.value, c.subjects, c.paths, head);
    }
    var sources, windows := EmitRows(names, rows);
    var inputs := InputsOf(c, head, pair, windows);
    var projection := C.BuildProjection(h, inputs);
    if projection.Failure? { return Failure(ProjectionRefused(projection.error)); }
    r := Success(ObligationOf(unit, c, pair, sources, projection.value));
    assert Frozen(h, names, unit, c, head, grouped.value, r.value);
  }

  // ---- The paired run's check of an obligation ---------------------------------------------------------------

  /** `valid_path` and `production_rust` together. */
  type PathRule = string -> bool

  predicate Hex(oid: string) {
    (|oid| == 40 || |oid| == 64) && forall c :: c in oid ==> '0' <= c <= '9' || 'a' <= c <= 'f'
  }

  predicate SpecValid(production: PathRule, s: W.Spec) {
    s.requiredId != "" && production(s.body.path) && Hex(s.body.blob) && 1 <= s.body.start <= s.body.end
  }

  predicate SourcesValid(production: PathRule, sources: seq<W.Spec>) {
    && sources != [] && (forall s :: s in sources ==> SpecValid(production, s))
    && Distinct(Map(sources, SpecIdOf)) && Distinct(Map(sources, SpecBodyOf))
    && exists s :: s in sources && s.body.role == W.Changed
  }

  predicate SubjectWindowsValid(rows: seq<SubjectWindow>) {
    && rows != [] && (forall r :: r in rows ==> r.subject != "" && r.window != "" && r.role in ["caller", "callee"])
    && rows == Sort(rows, SubjectWindowLe) && Distinct(rows)
  }

  predicate PairsValid(pairs: seq<C.Pair>) {
    pairs != [] && (forall p :: p in pairs ==> p.caller != "" && p.callee != "") && pairs == Sort(pairs, PairLe) && Distinct(pairs)
  }

  function ReferenceIdOf(r: Reference): string { r.id }

  predicate ReferencesValid(valid: PathRule, refs: seq<Reference>) {
    Distinct(Map(refs, ReferenceIdOf)) && forall r :: r in refs ==> r.id != "" && r.side in ["base", "head"] && valid(r.path) && Hex(r.blob)
  }

  /** The projection names exactly the obligation's sources, and its windows do too. */
  predicate DomainsAgree(sources: seq<W.Spec>, b: C.Body) {
    && IdList(b.requiredIds)
    && (set x | x in b.requiredIds) == (set s | s in sources :: s.requiredId)
    && (set x | x in b.requiredIds) == (set w | w in b.windows :: w.requiredId)
  }

  predicate SubjectsAgree(rows: seq<SubjectWindow>, subjects: seq<C.Subject>) {
    (set r | r in rows :: (r.role, r.window)) == (set s | s in subjects && s.Admitted? :: (s.role, s.window))
  }

  /** `_obligation`. */
  predicate Acceptable(h: C.Hashes, production: PathRule, valid: PathRule, unit: string, o: Obligation) {
    && o.unit == unit && o.obligations != [] && IdList(o.obligations) && o.relations != [] && IdList(o.relations) && o.scope != ""
    && PairsValid(o.pairs) && SubjectWindowsValid(o.subjectWindows) && SourcesValid(production, o.sources)
    && ReferencesValid(valid, o.references) && C.Validate(h, o.projection).Success?
    && o.projection.body.identity.projection != "" && DomainsAgree(o.sources, o.projection.body)
    && SubjectsAgree(o.subjectWindows, o.projection.body.subjects)
  }

  function FirstCallee(subjects: seq<C.Subject>): Option<C.Subject> {
    if subjects == [] then None
    else if subjects[0].role == "callee" && subjects[0].Admitted? then Some(subjects[0]) else FirstCallee(subjects[1..])
  }

  function FirstOf(rows: seq<C.Materialized>, source: string): Option<C.Materialized> {
    if rows == [] then None else if rows[0].source == source then Some(rows[0]) else FirstOf(rows[1..], source)
  }

  /** `_callee_spec`: None is its refusal. */
  function CalleeSpec(names: W.Naming, o: Obligation): Option<W.Spec> {
    var callee := FirstCallee(o.projection.body.subjects);
    if callee == None || !callee.value.Admitted? then None else
    var row := FirstOf(o.projection.body.materialized, callee.value.source);
    if row == None || row.value.side != "head" then None else
    var body := W.Window(W.Changed, W.Head, row.value.path, callee.value.start, callee.value.end, row.value.blob);
    Some(W.Spec(names(body), body))
  }

  // ---- Every frozen obligation is accepted ---------------------------------------------------------------------

  ghost predicate Legal(production: PathRule, c: RunContext, head: map<string, string>) {
    forall s :: s in c.subjects && Known(s, c.paths, head) ==> production(c.paths[s.source]) && Hex(head[c.paths[s.source]])
  }

  lemma GroupsCoverRows(groups: map<string, Group>, c: RunContext, head: map<string, string>)
    requires Hulls(groups, c.subjects, c.paths, head)
    ensures var rows := RowsOf(groups, c.subjects);
            && (forall s :: s in c.subjects ==> s.window in groups && Row(s.window, groups[s.window]) in rows)
            && (forall r :: r in rows ==> r.id in groups && r.group == groups[r.id] && IsHull(r.group, c.subjects, r.id, c.paths, head))
  {
    var first := Firsts(c.subjects, WindowOf);
    var ids := Sort(first, TextLe);
    FirstsSpec(c.subjects, WindowOf);
    OrdersAreTotal();
    SortMembers(first, TextLe);
    forall k | k in ids ensures k in groups {
      var s :| s in c.subjects && WindowOf(s) == k;
    }
    var rows := RowsOf(groups, c.subjects);
    forall s | s in c.subjects ensures Row(s.window, groups[s.window]) in rows {
      assert WindowOf(s) in ids;
      var i :| 0 <= i < |ids| && ids[i] == s.window;
      assert rows[i] == Row(s.window, groups[s.window]);
    }
  }

  lemma RowIsLegal(production: PathRule, names: W.Naming, c: RunContext, head: map<string, string>, r: Row)
    requires IsHull(r.group, c.subjects, r.id, c.paths, head) && Legal(production, c, head)
    requires forall s :: s in c.subjects ==> 1 <= s.start <= s.end
    ensures production(r.group.path) && Hex(r.group.blob) && 1 <= r.group.start <= r.group.end
  {
    var low :| low in c.subjects && InWindow(low, r.id) && low.start == r.group.start;
    assert SameFile(r.group, low, c.paths, head) && Known(low, c.paths, head);
  }

  /** The projection's inputs passed the builder's subject check: a callee, then a caller. */
  lemma TwoSubjects(c: RunContext, i: C.Inputs)
    requires C.CheckFiles(i) == None && i.subjects == Map(c.subjects, SubjectOf)
    ensures |c.subjects| == 2 && c.subjects[0].role == "callee" && c.subjects[1].role == "caller"
    ensures forall s :: s in c.subjects ==> s.endpoint != "" && s.source != "" && s.window != "" && 1 <= s.start <= s.end
  {
    C.FilesPass(i);
    forall s | s in c.subjects ensures C.SubjectValid(SubjectOf(s)) {
      MapMembers(c.subjects, SubjectOf);
      assert SubjectOf(s) in i.subjects;
    }
  }

  lemma SubjectWindowsAreValid(c: RunContext)
    requires |c.subjects| == 2 && c.subjects[0].role == "callee" && c.subjects[1].role == "caller"
    requires forall s :: s in c.subjects ==> s.endpoint != "" && s.window != ""
    ensures SubjectWindowsValid(Sort(Map(c.subjects, SubjectWindowOf), SubjectWindowLe))
  {
    assert c.subjects[0] in c.subjects && c.subjects[1] in c.subjects;
    var a, b := SubjectWindowOf(c.subjects[0]), SubjectWindowOf(c.subjects[1]);
    assert Map(c.subjects, SubjectWindowOf) == [a, b];
    SortedPairIsValid(a, b);
  }

  lemma SortedPairIsValid(a: SubjectWindow, b: SubjectWindow)
    requires a.role == "callee" && b.role == "caller" && a.subject != "" && a.window != "" && b.subject != "" && b.window != ""
    ensures SubjectWindowsValid(Sort([a, b], SubjectWindowLe))
  {
    var rows := Sort([a, b], SubjectWindowLe);
    OrdersAreTotal();
    SortSpec([a, b], SubjectWindowLe);
    SortTwo(a, b, SubjectWindowLe);
    SortFixesSorted(rows, SubjectWindowLe);
  }

  lemma SubjectsDoAgree(c: RunContext)
    ensures SubjectsAgree(Sort(Map(c.subjects, SubjectWindowOf), SubjectWindowLe), Map(c.subjects, SubjectOf))
  {
    var rows, subjects := Map(c.subjects, SubjectWindowOf), Map(c.subjects, SubjectOf);
    OrdersAreTotal();
    SortMembers(rows, SubjectWindowLe);
    MapMembers(c.subjects, SubjectWindowOf);
    MapMembers(c.subjects, SubjectOf);
    var a := set r | r in Sort(rows, SubjectWindowLe) :: (r.role, r.window);
    var b := set s | s in subjects && s.Admitted? :: (s.role, s.window);
    forall x | x in a ensures x in b {
      var r :| r in rows && (r.role, r.window) == x;
      var s :| s in c.subjects && SubjectWindowOf(s) == r;
      assert SubjectOf(s) in subjects;
    }
    forall x | x in b ensures x in a {
      var t :| t in subjects && t.Admitted? && (t.role, t.window) == x;
      var s :| s in c.subjects && SubjectOf(s) == t;
      assert SubjectWindowOf(s) in rows;
    }
  }

  /** The two lists emitted row by row carry the same ids. */
  lemma EmittedIdsAgree(names: W.Naming, rows: seq<Row>)
    ensures Map(Map(rows, SpecOfRow(names)), SpecIdOf) == Map(Map(rows, WindowOfRow(names)), C.RequiredIdOf)
  {}

  /** Sorting either list, or its ids, keeps the ids. */
  lemma SortedIdsAgree(specs: seq<W.Spec>, windows: seq<C.ContextWindow>, sources: seq<W.Spec>, sorted: seq<C.ContextWindow>, ids: seq<string>)
    requires Map(specs, SpecIdOf) == Map(windows, C.RequiredIdOf)
    requires sources == Sort(specs, W.OutLe) && sorted == Sort(windows, C.WindowLe) && ids == Sort(Map(sorted, C.RequiredIdOf), TextLe)
    ensures multiset(Map(sources, SpecIdOf)) == multiset(ids) == multiset(Map(sorted, C.RequiredIdOf))
  {
    C.OrdersAreTotal();
    W.OrdersAreTotal();
    SortSpec(specs, W.OutLe);
    SortSpec(windows, C.WindowLe);
    SortSpec(Map(sorted, C.RequiredIdOf), TextLe);
    MapIgnoresOrder(sources, specs, SpecIdOf);
    MapIgnoresOrder(sorted, windows, C.RequiredIdOf);
  }

  /** Sources and projection windows name the same requests, each once. */
  lemma DomainsDoAgree(h: C.Hashes, names: W.Naming, rows: seq<Row>, i: C.Inputs)
    requires i.windows == Map(rows, WindowOfRow(names)) && C.CheckWindows(h, i) == None && Distinct(C.BodyOf(h, i).requiredIds)
    ensures DomainsAgree(Sort(Map(rows, SpecOfRow(names)), W.OutLe), C.BodyOf(h, i))
    ensures Distinct(Map(Sort(Map(rows, SpecOfRow(names)), W.OutLe), SpecIdOf))
  {
    var specs, windows := Map(rows, SpecOfRow(names)), Map(rows, WindowOfRow(names));
    var sources, sorted, ids := Sort(specs, W.OutLe), C.WindowRows(i), C.BodyOf(h, i).requiredIds;
    C.RequiredIdsAreList(h, i);
    EmittedIdsAgree(names, rows);
    SortedIdsAgree(specs, windows, sources, sorted, ids);
    DistinctIgnoresOrder(Map(sources, SpecIdOf), ids);
    SameIds(sources, SpecIdOf, ids);
    SameIds(sorted, C.RequiredIdOf, ids);
  }

  lemma SameIds<T>(rows: seq<T>, id: T -> string, ids: seq<string>)
    requires multiset(Map(rows, id)) == multiset(ids)
    ensures (set x | x in ids) == (set r | r in rows :: id(r))
  {
    MultisetMembers(Map(rows, id), ids);
    MapMembers(rows, id);
  }

  lemma DistinctIdsDistinctBodies(names: W.Naming, sources: seq<W.Spec>)
    requires Distinct(Map(sources, SpecIdOf)) && forall s :: s in sources ==> s.requiredId == names(s.body)
    ensures Distinct(Map(sources, SpecBodyOf))
  {
    var ids, bodies := Map(sources, SpecIdOf), Map(sources, SpecBodyOf);
    forall i, j | 0 <= i < j < |bodies| ensures bodies[i] != bodies[j] {
      assert ids[i] != ids[j] && sources[i] in sources && sources[j] in sources;
    }
  }

  ghost predicate ProperSpans(subjects: seq<RunSubject>) { forall s :: s in subjects ==> 1 <= s.start <= s.end }

  lemma EmittedSpecIsValid(production: PathRule, names: W.Naming, c: RunContext, head: map<string, string>, rows: seq<Row>, s: W.Spec)
    requires forall r :: r in rows ==> IsHull(r.group, c.subjects, r.id, c.paths, head)
    requires Legal(production, c, head) && ProperSpans(c.subjects) && s in Sort(Map(rows, SpecOfRow(names)), W.OutLe)
    ensures production(s.body.path) && Hex(s.body.blob) && 1 <= s.body.start <= s.body.end && s.requiredId == names(s.body)
  {
    W.OrdersAreTotal();
    SortMembers(Map(rows, SpecOfRow(names)), W.OutLe);
    MapMembers(rows, SpecOfRow(names));
    var r :| r in rows && SpecOfRow(names)(r) == s;
    RowIsLegal(production, names, c, head, r);
  }

  lemma CalleeIsEmitted(names: W.Naming, c: RunContext, head: map<string, string>, rows: seq<Row>, row: Row)
    requires row in rows && IsHull(row.group, c.subjects, row.id, c.paths, head)
    requires exists s :: s in c.subjects && InWindow(s, row.id) && s.role == "callee"
    ensures exists s :: s in Sort(Map(rows, SpecOfRow(names)), W.OutLe) && s.body.role == W.Changed
  {
    W.OrdersAreTotal();
    SortMembers(Map(rows, SpecOfRow(names)), W.OutLe);
    MapHolds(rows, SpecOfRow(names), row);
    assert SpecOfRow(names)(row).body.role == W.Changed;
  }

  lemma SourcesAreValid(production: PathRule, names: W.Naming, c: RunContext, head: map<string, string>, groups: map<string, Group>)
    requires Hulls(groups, c.subjects, c.paths, head) && Legal(production, c, head) && ProperSpans(c.subjects)
    requires |c.subjects| == 2 && c.subjects[0].role == "callee"
    requires var sources := Sort(Map(RowsOf(groups, c.subjects), SpecOfRow(names)), W.OutLe);
             Distinct(Map(sources, SpecIdOf)) && forall s :: s in sources ==> s.requiredId != ""
    ensures SourcesValid(production, Sort(Map(RowsOf(groups, c.subjects), SpecOfRow(names)), W.OutLe))
  {
    var rows := RowsOf(groups, c.subjects);
    var sources := Sort(Map(rows, SpecOfRow(names)), W.OutLe);
    GroupsCoverRows(groups, c, head);
    forall s | s in sources ensures SpecValid(production, s) && s.requiredId == names(s.body) {
      EmittedSpecIsValid(production, names, c, head, rows, s);
    }
    DistinctIdsDistinctBodies(names, sources);
    var callee := c.subjects[0];
    assert callee in c.subjects && InWindow(callee, callee.window);
    CalleeIsEmitted(names, c, head, rows, Row(callee.window, groups[callee.window]));
  }

  lemma {:induction false} FirstOfFinds(rows: seq<C.Materialized>, source: string)
    requires exists m :: m in rows && m.source == source
    ensures FirstOf(rows, source).Some? && FirstOf(rows, source).value in rows && FirstOf(rows, source).value.source == source
  {
    if rows[0].source != source {
      assert rows == [rows[0]] + rows[1..];
      FirstOfFinds(rows[1..], source);
    }
  }

  /** The callee's own range, in the head tree, under the name its body has. */
  lemma CalleeIsFound(names: W.Naming, c: RunContext, head: map<string, string>, o: Obligation)
    requires |c.subjects| == 2 && c.subjects[0].role == "callee" && Groupable(c.subjects, c.paths, head)
    requires o.projection.body.subjects == Map(c.subjects, SubjectOf)
    requires o.projection.body.materialized == Sort(Map(Firsts(c.subjects, SourceIdOf), MaterializedAt(c, head)), C.SourceLe)
    ensures var callee := c.subjects[0];
            && callee.source in c.paths && c.paths[callee.source] in head
            && CalleeSpec(names, o).Some?
            && CalleeSpec(names, o).value.body ==
               W.Window(W.Changed, W.Head, c.paths[callee.source], callee.start, callee.end, head[c.paths[callee.source]])
            && CalleeSpec(names, o).value.requiredId == names(CalleeSpec(names, o).value.body)
  {
    var callee := c.subjects[0];
    assert callee in c.subjects;
    var made := Map(Firsts(c.subjects, SourceIdOf), MaterializedAt(c, head));
    FirstsSpec(c.subjects, SourceIdOf);
    MapMembers(Firsts(c.subjects, SourceIdOf), MaterializedAt(c, head));
    C.OrdersAreTotal();
    SortMembers(made, C.SourceLe);
    assert SourceIdOf(callee) in Firsts(c.subjects, SourceIdOf);
    assert MaterializedAt(c, head)(callee.source) in made;
    FirstOfFinds(Sort(made, C.SourceLe), callee.source);
    assert FirstOf(Sort(made, C.SourceLe), callee.source).value in made;
  }

  /** A cardinality known to be zero is handed on with the details of an unknown one, and the builder
      refuses it: only the state "unknown" is ever frozen. */
  lemma OnlyUnknownIsFrozen(h: C.Hashes, names: W.Naming, unit: string, c: RunContext, head: map<string, string>, groups: map<string, Group>, o: Obligation)
    requires Frozen(h, names, unit, c, head, groups, o)
    ensures c.latentState == "unknown"
  {
    var pair := C.Pair(FirstWithRole(c.subjects, "caller").value.endpoint, FirstWithRole(c.subjects, "callee").value.endpoint);
    var i := InputsOf(c, head, pair, Map(RowsOf(groups, c.subjects), WindowOfRow(names)));
    C.BuiltParts(h, i);
    C.RestPasses(i);
  }

  lemma NamedByDomain(sources: seq<W.Spec>, b: C.Body)
    requires DomainsAgree(sources, b)
    ensures forall s :: s in sources ==> s.requiredId != ""
  {
    var named := set s | s in sources :: s.requiredId;
    forall s | s in sources ensures s.requiredId != "" {
      assert s.requiredId in named;
    }
  }

  /** The sources a frozen obligation lists: valid, and those its projection names. */
  lemma FrozenSources(h: C.Hashes, production: PathRule, names: W.Naming, c: RunContext, head: map<string, string>, groups: map<string, Group>, i: C.Inputs)
    requires Hulls(groups, c.subjects, c.paths, head) && Legal(production, c, head) && ProperSpans(c.subjects)
    requires |c.subjects| == 2 && c.subjects[0].role == "callee"
    requires i.windows == Map(RowsOf(groups, c.subjects), WindowOfRow(names))
    requires C.CheckWindows(h, i) == None && Distinct(C.BodyOf(h, i).requiredIds)
    ensures var sources := Sort(Map(RowsOf(groups, c.subjects), SpecOfRow(names)), W.OutLe);
            SourcesValid(production, sources) && DomainsAgree(sources, C.BodyOf(h, i))
  {
    DomainsDoAgree(h, names, RowsOf(groups, c.subjects), i);
    NamedByDomain(Sort(Map(RowsOf(groups, c.subjects), SpecOfRow(names)), W.OutLe), C.BodyOf(h, i));
    SourcesAreValid(production, names, c, head, groups);
  }

  /** Every obligation Stage 0 freezes over production Rust paths is accepted by the paired run, whose
      callee window is then the callee's requested range. */
  lemma FrozenIsAcceptable(h: C.Hashes, production: PathRule, valid: PathRule, names: W.Naming, unit: string, c: RunContext,
                           head: map<string, string>, groups: map<string, Group>, o: Obligation)
    requires Frozen(h, names, unit, c, head, groups, o) && Legal(production, c, head)
    ensures Acceptable(h, production, valid, unit, o)
    ensures CalleeSpec(names, o).Some? && |c.subjects| == 2
    ensures var callee := c.subjects[0];
            && callee.role == "callee" && Known(callee, c.paths, head)
            && CalleeSpec(names, o).value.body ==
               W.Window(W.Changed, W.Head, c.paths[callee.source], callee.start, callee.end, head[c.paths[callee.source]])
  {
    var pair, i, specs := FrozenParts(h, names, unit, c, head, groups, o);
    TwoSubjects(c, i);
    FrozenSources(h, production, names, c, head, groups, i);
    RolesFound(c.subjects);
    CalleeIsFound(names, c, head, o);
    AssemblyIsAcceptable(h, production, valid, unit, c, pair, specs, i);
  }

  lemma RolesFound(subjects: seq<RunSubject>)
    requires |subjects| == 2 && subjects[0].role == "callee" && subjects[1].role == "caller"
    ensures FirstWithRole(subjects, "callee") == Some(subjects[0]) && FirstWithRole(subjects, "caller") == Some(subjects[1])
    ensures subjects[0] in subjects && subjects[1] in subjects
  {
    assert subjects[1..][0] == subjects[1];
  }

  /** A frozen obligation taken apart. */
  lemma FrozenParts(h: C.Hashes, names: W.Naming, unit: string, c: RunContext, head: map<string, string>, groups: map<string, Group>, o: Obligation)
    returns (pair: C.Pair, i: C.Inputs, specs: seq<W.Spec>)
    requires Frozen(h, names, unit, c, head, groups, o)
    ensures C.Build(h, i).Success? && o == ObligationOf(unit, c, pair, specs, C.Build(h, i).value)
    ensures i.identity == C.Identity(c.id, c.snapshot, c.request, [c.obligation], c.targets, [pair]) && i.subjects == Map(c.subjects, SubjectOf)
    ensures i.materialized == Map(Firsts(c.subjects, SourceIdOf), MaterializedAt(c, head))
    ensures i.windows == Map(RowsOf(groups, c.subjects), WindowOfRow(names)) && specs == Map(RowsOf(groups, c.subjects), SpecOfRow(names))
    ensures C.CheckFiles(i) == None && C.CheckWindows(h, i) == None && Distinct(C.BodyOf(h, i).requiredIds)
    ensures o.projection.body == C.BodyOf(h, i)
    ensures FirstWithRole(c.subjects, "caller").Some? && pair.caller == FirstWithRole(c.subjects, "caller").value.endpoint
    ensures FirstWithRole(c.subjects, "callee").Some? && pair.callee == FirstWithRole(c.subjects, "callee").value.endpoint
  {
    pair := C.Pair(FirstWithRole(c.subjects, "caller").value.endpoint, FirstWithRole(c.subjects, "callee").value.endpoint);
    var rows := RowsOf(groups, c.subjects);
    specs := Map(rows, SpecOfRow(names));
    i := InputsOf(c, head, pair, Map(rows, WindowOfRow(names)));
    C.BuiltParts(h, i);
  }

  lemma AssemblyIsAcceptable(h: C.Hashes, production: PathRule, valid: PathRule, unit: string, c: RunContext, pair: C.Pair, specs: seq<W.Spec>, i: C.Inputs)
    requires C.Build(h, i).Success? && i.identity == C.Identity(c.id, c.snapshot, c.request, [c.obligation], c.targets, [pair])
    requires i.subjects == Map(c.subjects, SubjectOf) && pair.caller != "" && pair.callee != ""
    requires SourcesValid(production, Sort(specs, W.OutLe)) && DomainsAgree(Sort(specs, W.OutLe), C.BodyOf(h, i))
    ensures Acceptable(h, production, valid, unit, ObligationOf(unit, c, pair, specs, C.Build(h, i).value))
  {
    C.BuiltParts(h, i);
    C.FilesPass(i);
    C.RestPasses(i);
    C.BuilderMeetsValidator(h, i);
    TwoSubjects(c, i);
    SubjectWindowsAreValid(c);
    SubjectsDoAgree(c);
    OnePairIsValid(pair);
  }

  lemma OnePairIsValid(pair: C.Pair)
    requires pair.caller != "" && pair.callee != ""
    ensures PairsValid([pair])
  {}
}
