/** The authority trace of a report v3 (scripts/validate_bundle.py).

    Every row carries the sequence number of the event that wrote it.  The checker indexes the rows
    by id, recomputes what each decision and finding was entitled to cite at its own sequence
    number, and derives the coverage sets from that. */
module AuthorityTrace {
  import opened Wrappers
  import opened Ordering

  datatype Registration = Registration(at: int, id: string)
  datatype Execution = Execution(at: int, id: string, event: string, obligations: set<string>, parsed: set<string>, structured: bool, raw: string)
  datatype Claim = Claim(at: int, id: string, event: string, execution: string, obligation: string, property: string)
  datatype Evidence = Evidence(at: int, id: string, input: string, output: string)
  datatype Binding = Binding(at: int, id: string, claim: string, evidence: string, reproduces: bool, property: string)
  datatype Outcome = Passed | Inconclusive | Unsupported
  datatype Verification = Verification(at: int, id: string, claim: string, outcome: Outcome, evidence: set<string>, input: string, output: string)
  datatype Ruling = Accept | Reject | Defer | Exception
  datatype Decision = Decision(at: int, id: string, claim: string, ruling: Ruling, sources: set<string>, property: string, context: Context)
  datatype Status = UnverifiedCandidate | VerifiedCandidate | Accepted | Rejected
  datatype Finding = Finding(at: int, id: string, claim: string, status: Status, evidence: set<string>, verifications: set<string>,
                             decision: Option<string>, supersedes: Option<string>)
  datatype Disposition = Proposed | Supported | AcceptedClaim | RejectedClaim
  datatype Review = Unreviewed | HumanReviewed | AcceptedReview | RejectedReview
  datatype Assessment = Assessment(claim: string, bindings: set<string>, evidence: set<string>, verifications: set<string>,
                                   decisions: set<string>, findings: set<string>, active: Option<string>, current: Option<string>,
                                   conflict: bool, disposition: Disposition, review: Review)

  /** The run, universe and snapshot a decision is made under. */
  datatype Context = Context(run: string, universe: string, snapshot: string)

  datatype Stage = Stage(ids: seq<string>, count: int)
  datatype Coverage = Coverage(universe: string, denominator: seq<string>, selected: int, visited: Stage, completed: Stage,
                               evidenceSupported: Stage, verified: Stage, freshVerified: Stage, accepted: Stage)

  datatype Report = Report(executions: seq<Execution>, claims: seq<Claim>, evidence: seq<Evidence>, bindings: seq<Binding>,
                           verifications: seq<Verification>, decisions: seq<Decision>, findings: seq<Finding>,
                           assessments: seq<Assessment>, registrations: seq<Registration>, confirmed: int,
                           context: Context, selected: seq<string>, artifacts: seq<string>, coverage: Coverage)

  // ---- Canonical order and indexing ------------------------------------------------------------

  datatype EventKey = EventKey(at: int, id: string)

  predicate EventLe(a: EventKey, b: EventKey) { a.at < b.at || (a.at == b.at && TextLe(a.id, b.id)) }

  predicate EventLt(a: EventKey, b: EventKey) { EventLe(a, b) && a != b }

  lemma EventLeIsTotalOrder()
    ensures TotalPreorder(EventLe)
    ensures forall a, b :: EventLe(a, b) && EventLe(b, a) ==> a == b
  {
    TextLeIsTotalPreorder();
  }

  /** `assert_canonical_order`: the keys are their own sorted list and repeat nothing. */
  predicate Canonical<K(==)>(keys: seq<K>, le: (K, K) -> bool) {
    keys == Sort(keys, le) && |keys| == |set k | k in keys|
  }

  /** The check holds exactly of the strictly increasing key lists. */
  lemma CanonicalIsStrictlyIncreasing<K(!new)>(keys: seq<K>, le: (K, K) -> bool)
    requires TotalPreorder(le)
    ensures Canonical(keys, le) <==> forall i, j :: 0 <= i < j < |keys| ==> le(keys[i], keys[j]) && keys[i] != keys[j]
  {
    CardinalityOfDistinct(keys);
    SortSpec(keys, le);
    if Sorted(keys, le) { SortFixesSorted(keys, le); }
  }

  /** A dict comprehension keyed by id: of two rows with one id the later stays. */
  function Index<R>(rows: seq<R>, id: R -> string): map<string, R> {
    if rows == [] then map[] else
    var n := |rows| - 1;
    Index(rows[..n], id)[id(rows[n]) := rows[n]]
  }

  /** The index holds, under each id that occurs, the last row that carries it. */
  lemma {:induction false} IndexHoldsTheLast<R>(rows: seq<R>, id: R -> string, k: string)
    ensures k in Index(rows, id) <==> exists i :: 0 <= i < |rows| && id(rows[i]) == k
    ensures k in Index(rows, id) ==>
              exists i :: 0 <= i < |rows| && rows[i] == Index(rows, id)[k] && id(rows[i]) == k &&
                          forall j :: i < j < |rows| ==> id(rows[j]) != k
  {
    if rows != [] {
      var n := |rows| - 1;
      IndexHoldsTheLast(rows[..n], id, k);
      if id(rows[n]) != k && k in Index(rows, id) {
        var i :| 0 <= i < n && rows[..n][i] == Index(rows[..n], id)[k] && id(rows[..n][i]) == k &&
                 forall j :: i < j < n ==> id(rows[..n][j]) != k;
        forall j | i < j < |rows| ensures id(rows[j]) != k {
          if j < n { assert rows[..n][j] == rows[j]; }
        }
        assert rows[i] == Index(rows, id)[k];
      }
    }
  }

  function ExecutionId(x: Execution): string { x.id }
  function ClaimId(x: Claim): string { x.id }
  function EvidenceId(x: Evidence): string { x.id }
  function BindingId(x: Binding): string { x.id }
  function VerificationId(x: Verification): string { x.id }
  function DecisionId(x: Decision): string { x.id }
  function FindingId(x: Finding): string { x.id }
  function AssessmentId(x: Assessment): string { x.claim }

  /** The report's rows, indexed. */
  datatype Book = Book(executions: map<string, Execution>, claims: map<string, Claim>, evidence: map<string, Evidence>,
                       bindings: map<string, Binding>, verifications: map<string, Verification>, decisions: map<string, Decision>,
                       findings: map<string, Finding>, assessments: map<string, Assessment>)

  function BookOf(r: Report): Book {
    Book(Index(r.executions, ExecutionId), Index(r.claims, ClaimId), Index(r.evidence, EvidenceId), Index(r.bindings, BindingId),
         Index(r.verifications, VerificationId), Index(r.decisions, DecisionId), Index(r.findings, FindingId),
         Index(r.assessments, AssessmentId))
  }

  ghost predicate Keyed(b: Book) {
    && (forall k :: k in b.bindings ==> b.bindings[k].id == k)
    && (forall k :: k in b.verifications ==> b.verifications[k].id == k)
    && (forall k :: k in b.decisions ==> b.decisions[k].id == k)
    && (forall k :: k in b.findings ==> b.findings[k].id == k)
    && (forall k :: k in b.assessments ==> b.assessments[k].claim == k)
  }

  lemma BookIsKeyed(r: Report)
    ensures Keyed(BookOf(r))
  {
    var b := BookOf(r);
    forall k ensures k in b.bindings ==> b.bindings[k].id == k { IndexHoldsTheLast(r.bindings, BindingId, k); }
    forall k ensures k in b.verifications ==> b.verifications[k].id == k { IndexHoldsTheLast(r.verifications, VerificationId, k); }
    forall k ensures k in b.decisions ==> b.decisions[k].id == k { IndexHoldsTheLast(r.decisions, DecisionId, k); }
    forall k ensures k in b.findings ==> b.findings[k].id == k { IndexHoldsTheLast(r.findings, FindingId, k); }
    forall k ensures k in b.assessments ==> b.assessments[k].claim == k { IndexHoldsTheLast(r.assessments, AssessmentId, k); }
  }

  // ---- The trace of one claim ----------------------------------------------------------------------

  datatype Horizon = Ever | Before(at: int)

  predicate Current(at: int, h: Horizon) { h.Ever? || at < h.at }

  function BindingsOf(b: Book, claim: string, h: Horizon): set<string> {
    set x | x in b.bindings && b.bindings[x].claim == claim && Current(b.bindings[x].at, h)
  }

  function ReproducingOf(b: Book, claim: string, h: Horizon): set<string> {
    set x | x in BindingsOf(b, claim, h) && b.bindings[x].reproduces
  }

  function EvidenceOf(b: Book, claim: string, h: Horizon): set<string> {
    set x | x in BindingsOf(b, claim, h) :: b.bindings[x].evidence
  }

  function ReproducedOf(b: Book, claim: string, h: Horizon): set<string> {
    set x | x in ReproducingOf(b, claim, h) :: b.bindings[x].evidence
  }

  function VerificationsOf(b: Book, claim: string, h: Horizon): set<string> {
    set x | x in b.verifications && b.verifications[x].claim == claim && Current(b.verifications[x].at, h)
  }

  /** Passed verifications whose evidence was all reproduced by then. */
  function PassedOf(b: Book, claim: string, h: Horizon): set<string> {
    set x | x in VerificationsOf(b, claim, h) && b.verifications[x].outcome == Passed &&
            b.verifications[x].evidence != {} && b.verifications[x].evidence <= ReproducedOf(b, claim, h)
  }

  function NonpassedOf(b: Book, claim: string, h: Horizon): set<string> {
    set x | x in VerificationsOf(b, claim, h) && b.verifications[x].outcome != Passed
  }

  /** A trace only grows with its horizon. */
  lemma TraceGrows(b: Book, claim: string, near: int, far: Horizon)
    requires far.Ever? || near <= far.at
    ensures BindingsOf(b, claim, Before(near)) <= BindingsOf(b, claim, far)
    ensures ReproducingOf(b, claim, Before(near)) <= ReproducingOf(b, claim, far)
    ensures EvidenceOf(b, claim, Before(near)) <= EvidenceOf(b, claim, far)
    ensures ReproducedOf(b, claim, Before(near)) <= ReproducedOf(b, claim, far)
    ensures VerificationsOf(b, claim, Before(near)) <= VerificationsOf(b, claim, far)
    ensures PassedOf(b, claim, Before(near)) <= PassedOf(b, claim, far)
    ensures NonpassedOf(b, claim, Before(near)) <= NonpassedOf(b, claim, far)
  {
    assert ReproducingOf(b, claim, Before(near)) <= ReproducingOf(b, claim, far);
    assert ReproducedOf(b, claim, Before(near)) <= ReproducedOf(b, claim, far);
  }

  // ---- Row checks ------------------------------------------------------------------------------------

  function DecisionSources(b: Book, d: Decision): set<string> {
    var h := Before(d.at);
    match d.ruling
    case Accept => {d.claim} + ReproducedOf(b, d.claim, h) + PassedOf(b, d.claim, h) + ReproducingOf(b, d.claim, h)
    case Defer =>
      var nonpassed := NonpassedOf(b, d.claim, h);
      var cited := set v, e | v in nonpassed && e in b.verifications[v].evidence :: e;
      {d.claim} + nonpassed + cited + set x | x in BindingsOf(b, d.claim, h) && b.bindings[x].evidence in cited
    case _ => {d.claim}
  }

  predicate DecisionExact(b: Book, context: Context, d: Decision) {
    && d.claim in b.claims && d.context == context && d.property == b.claims[d.claim].property
    && (d.ruling == Accept ==> ReproducedOf(b, d.claim, Before(d.at)) != {} && PassedOf(b, d.claim, Before(d.at)) != {})
    && d.sources == DecisionSources(b, d)
  }

  predicate Ruled(b: Book, f: Finding, ruling: Ruling) {
    f.decision.Some? && f.decision.value in b.decisions && b.decisions[f.decision.value].claim == f.claim &&
    b.decisions[f.decision.value].ruling == ruling
  }

  predicate FindingExact(b: Book, f: Finding) {
    var h := Before(f.at);
    && f.claim in b.claims && f.evidence <= b.evidence.Keys && f.verifications <= b.verifications.Keys
    && (f.decision.Some? ==> f.decision.value in b.decisions)
    && match f.status
       case UnverifiedCandidate =>
         f.evidence == EvidenceOf(b, f.claim, h) && f.verifications == NonpassedOf(b, f.claim, h) && f.decision == None
       case VerifiedCandidate =>
         f.evidence == ReproducedOf(b, f.claim, h) && f.verifications == PassedOf(b, f.claim, h) != {} && f.decision == None
       case Accepted =>
         f.evidence == ReproducedOf(b, f.claim, h) && f.verifications == PassedOf(b, f.claim, h) && Ruled(b, f, Accept)
       case Rejected =>
         f.evidence == {} && f.verifications == {} && Ruled(b, f, Reject)
  }

  predicate ClaimClosed(b: Book, c: Claim) {
    c.execution in b.executions && c.id in b.executions[c.execution].parsed &&
    c.at == b.executions[c.execution].at && c.event == b.executions[c.execution].event
  }

  predicate BindingClosed(b: Book, x: Binding) {
    x.claim in b.claims && x.evidence in b.evidence && x.property == b.claims[x.claim].property
  }

  predicate VerificationClosed(b: Book, v: Verification) {
    && v.claim in b.claims && v.evidence <= b.evidence.Keys
    && (v.outcome == Unsupported ==> v.evidence == {})
    && (v.outcome == Passed ==> v.id in PassedOf(b, v.claim, Ever))
  }

  // ---- Supersession chains -----------------------------------------------------------------------------

  function FindingKey(f: Finding): EventKey { EventKey(f.at, f.id) }

  predicate FindingLe(f: Finding, g: Finding) { EventLe(FindingKey(f), FindingKey(g)) }

  predicate Precedes(f: Finding, g: Finding) { f.claim == g.claim && FindingLe(f, g) && f.id != g.id }

  /** The finding supersedes its immediate predecessor on the claim, or nothing when it is the first. */
  predicate Linked(b: Book, f: Finding) {
    match f.supersedes
    case None => forall x :: x in b.findings ==> !Precedes(b.findings[x], f)
    case Some(p) =>
      && p in b.findings && Precedes(b.findings[p], f)
      && forall x :: x in b.findings && Precedes(b.findings[x], f) ==> x == p || Precedes(b.findings[x], b.findings[p])
  }

  predicate IsLatest(b: Book, f: Finding) {
    forall x :: x in b.findings ==> !Precedes(f, b.findings[x])
  }

  predicate Follows(rows: seq<Finding>, i: nat)
    requires i < |rows|
  {
    rows[i].supersedes == if i == 0 then None else Some(rows[i - 1].id)
  }

  predicate InChain(rows: seq<Finding>) {
    forall i :: 0 <= i < |rows| ==> Follows(rows, i)
  }

  ghost predicate Ascends(rows: seq<Finding>) {
    forall i, j :: 0 <= i < j < |rows| ==> Precedes(rows[i], rows[j])
  }

  /** The claim's findings, each once, in event order. */
  ghost predicate ChainOf(b: Book, claim: string, rows: seq<Finding>) {
    && (forall f :: f in rows <==> f.id in b.findings && b.findings[f.id] == f && f.claim == claim)
    && Ascends(rows)
  }

  lemma FindingLeIsTotal()
    ensures TotalPreorder(FindingLe)
    ensures forall f, g :: FindingLe(f, g) && FindingLe(g, f) ==> f.at == g.at && f.id == g.id
  {
    EventLeIsTotalOrder();
  }

  /** The loop's chain, against the declarative one. */
  lemma ChainIsLinks(b: Book, claim: string, rows: seq<Finding>)
    requires Keyed(b) && ChainOf(b, claim, rows)
    ensures InChain(rows) <==> forall f :: f in rows ==> Linked(b, f)
  {
    forall i | 0 <= i < |rows| ensures Linked(b, rows[i]) <==> Follows(rows, i) {
      LinkAt(b, claim, rows, i);
    }
    if forall f :: f in rows ==> Linked(b, f) {
      forall i | 0 <= i < |rows| ensures Follows(rows, i) {
        assert rows[i] in rows;
      }
    }
  }

  /** A chain lists the claim's findings by their order. */
  lemma PlaceInChain(b: Book, claim: string, rows: seq<Finding>, i: nat, x: string) returns (j: nat)
    requires Keyed(b) && ChainOf(b, claim, rows) && i < |rows| && x in b.findings && b.findings[x].claim == claim
    ensures j < |rows| && rows[j] == b.findings[x]
    ensures Precedes(b.findings[x], rows[i]) <==> j < i
    ensures Precedes(rows[i], b.findings[x]) <==> i < j
  {
    assert b.findings[x] in rows;
    j :| 0 <= j < |rows| && rows[j] == b.findings[x];
    FindingLeIsTotal();
  }

  lemma LinkAt(b: Book, claim: string, rows: seq<Finding>, i: nat)
    requires Keyed(b) && ChainOf(b, claim, rows) && i < |rows|
    ensures Linked(b, rows[i]) <==> Follows(rows, i)
    ensures IsLatest(b, rows[i]) <==> i == |rows| - 1
  {
    var f := rows[i];
    assert f in rows;
    if i < |rows| - 1 {
      assert rows[i + 1] in rows && Precedes(f, rows[i + 1]);
    }
    forall x | x in b.findings ensures Precedes(f, b.findings[x]) ==> i < |rows| - 1 {
      if b.findings[x].claim == claim { var j := PlaceInChain(b, claim, rows, i, x); }
    }
    if i == 0 {
      FirstLink(b, claim, rows);
    } else {
      LaterLink(b, claim, rows, i);
    }
  }

  lemma FirstLink(b: Book, claim: string, rows: seq<Finding>)
    requires Keyed(b) && ChainOf(b, claim, rows) && rows != []
    ensures Linked(b, rows[0]) <==> rows[0].supersedes == None
  {
    assert rows[0] in rows;
    forall x | x in b.findings ensures !Precedes(b.findings[x], rows[0]) {
      if b.findings[x].claim == claim { var j := PlaceInChain(b, claim, rows, 0, x); }
    }
  }

  lemma PrecedesTheLink(b: Book, claim: string, rows: seq<Finding>, i: nat, p: string)
    requires Keyed(b) && ChainOf(b, claim, rows) && 0 < i < |rows| && p in b.findings && Precedes(b.findings[p], rows[i])
    ensures p == rows[i - 1].id || (Precedes(b.findings[p], rows[i - 1]) && !Precedes(rows[i - 1], b.findings[p]))
  {
    assert rows[i] in rows && rows[i - 1] in rows;
    var j := PlaceInChain(b, claim, rows, i - 1, p);
    var k := PlaceInChain(b, claim, rows, i, p);
  }

  lemma LaterLink(b: Book, claim: string, rows: seq<Finding>, i: nat)
    requires Keyed(b) && ChainOf(b, claim, rows) && 0 < i < |rows|
    ensures Linked(b, rows[i]) <==> rows[i].supersedes == Some(rows[i - 1].id)
  {
    var f, g := rows[i], rows[i - 1];
    assert g in rows && Precedes(g, f);
    forall x | x in b.findings && Precedes(b.findings[x], f) ensures x == g.id || Precedes(b.findings[x], g) {
      PrecedesTheLink(b, claim, rows, i, x);
    }
    if Linked(b, f) {
      assert g.id in b.findings && b.findings[g.id] == g;
      PrecedesTheLink(b, claim, rows, i, f.supersedes.value);
    }
  }

  /** One pass of a `for row in index.values()` loop that fails on the first bad row. */
  method CheckEach<R>(rows: map<string, R>, passes: R -> bool) returns (ok: bool)
    ensures ok <==> forall k :: k in rows ==> passes(rows[k])
  {
    var pending := rows.Keys;
    while pending != {}
      invariant pending <= rows.Keys
      invariant forall k :: k in rows && k !in pending ==> passes(rows[k])
      decreases |pending|
    {
      var k :| k in pending;
      if !passes(rows[k]) { return false; }
      pending := pending - {k};
    }
    return true;
  }

  ghost predicate Grouped(b: Book, done: set<string>, groups: map<string, seq<Finding>>) {
    && (forall c :: c in groups ==> forall f :: f in groups[c] <==> f.id in done && f.id in b.findings && b.findings[f.id] == f && f.claim == c)
    && (forall c :: c in groups ==> Distinct(groups[c]) && groups[c] != [])
    && (forall k :: k in done && k in b.findings ==> b.findings[k].claim in groups)
  }

  lemma GroupedStep(b: Book, done: set<string>, groups: map<string, seq<Finding>>, k: string)
    requires Keyed(b) && Grouped(b, done, groups) && k in b.findings && k !in done
    ensures var f := b.findings[k];
            var prior := if f.claim in groups then groups[f.claim] else [];
            Grouped(b, done + {k}, groups[f.claim := prior + [f]])
  {
    var f := b.findings[k];
    var prior := if f.claim in groups then groups[f.claim] else [];
    var next := groups[f.claim := prior + [f]];
    assert f !in prior;
    assert Distinct(prior + [f]);
    forall c | c in next && c != f.claim
      ensures forall g: Finding :: g in next[c] <==> g.id in done + {k} && g.id in b.findings && b.findings[g.id] == g && g.claim == c {
      assert next[c] == groups[c];
    }
  }

  /** `findings_by_claim`: rows appended to their claim's list in dict order. */
  method GroupFindings(b: Book) returns (groups: map<string, seq<Finding>>)
    requires Keyed(b)
    ensures Grouped(b, b.findings.Keys, groups)
  {
    groups := map[];
    var pending := b.findings.Keys;
    while pending != {}
      invariant pending <= b.findings.Keys && Grouped(b, b.findings.Keys - pending, groups)
      decreases |pending|
    {
      var k :| k in pending;
      var f := b.findings[k];
      GroupedStep(b, b.findings.Keys - pending, groups, k);
      groups := groups[f.claim := (if f.claim in groups then groups[f.claim] else []) + [f]];
      assert b.findings.Keys - pending + {k} == b.findings.Keys - (pending - {k});
      pending := pending - {k};
    }
    assert b.findings.Keys - pending == b.findings.Keys;
  }

  /** The sort of one claim's list puts it in chain order. */
  lemma SortedGroupIsChain(b: Book, groups: map<string, seq<Finding>>, c: string)
    requires Keyed(b) && Grouped(b, b.findings.Keys, groups) && c in groups
    ensures ChainOf(b, c, Sort(groups[c], FindingLe))
  {
    var rows := Sort(groups[c], FindingLe);
    FindingLeIsTotal();
    SortSpec(groups[c], FindingLe);
    SortMembers(groups[c], FindingLe);
    DistinctIgnoresOrder(rows, groups[c]);
    forall i, j | 0 <= i < j < |rows| ensures Precedes(rows[i], rows[j]) {
      assert rows[i] in rows && rows[j] in rows && rows[i] != rows[j];
    }
  }

  /** The `previous` loop over one claim's findings. */
  method CheckChain(rows: seq<Finding>) returns (ok: bool)
    ensures ok <==> InChain(rows)
  {
    var previous: Option<string> := None;
    for i := 0 to |rows|
      invariant previous == if i == 0 then None else Some(rows[i - 1].id)
      invariant forall j :: 0 <= j < i ==> Follows(rows, j)
    {
      if rows[i].supersedes != previous {
        assert !Follows(rows, i);
        return false;
      }
      previous := Some(rows[i].id);
    }
    return true;
  }

  /** Grouping, sorting in place and chaining: each finding supersedes its immediate predecessor,
      and each claim's last list entry is its latest finding. */
  method CheckChains(b: Book) returns (ok: bool, chains: map<string, seq<Finding>>)
    requires Keyed(b)
    ensures ok <==> forall k :: k in b.findings ==> Linked(b, b.findings[k])
    ensures ok ==> Chains(b, chains)
  {
    var groups := GroupFindings(b);
    chains := map[];
    var pending := groups.Keys;
    while pending != {}
      invariant pending <= groups.Keys && chains.Keys == groups.Keys - pending
      invariant forall c :: c in chains ==> ChainOf(b, c, chains[c]) && chains[c] != [] && InChain(chains[c])
      decreases |pending|
    {
      var c :| c in pending;
      var rows := Sort(groups[c], FindingLe);
      SortedGroupIsChain(b, groups, c);
      ChainIsLinks(b, c, rows);
      var linked := CheckChain(rows);
      if !linked {
        ghost var f :| f in rows && !Linked(b, f);
        assert f.id in b.findings && b.findings[f.id] == f;
        return false, chains;
      }
      FindingLeIsTotal();
      SortSpec(groups[c], FindingLe);
      pending, chains := pending - {c}, chains[c := rows];
    }
    forall k | k in b.findings ensures Linked(b, b.findings[k]) && b.findings[k].claim in chains {
      var f := b.findings[k];
      ChainIsLinks(b, f.claim, chains[f.claim]);
      assert f in chains[f.claim];
    }
    return true, chains;
  }

  /** Every claim with findings has its chain. */
  ghost predicate Chains(b: Book, chains: map<string, seq<Finding>>) {
    && (forall c :: c in chains ==> ChainOf(b, c, chains[c]) && chains[c] != [])
    && (forall k :: k in b.findings ==> b.findings[k].claim in chains)
  }

  // ---- Assessments -----------------------------------------------------------------------------------------

  predicate TraceAccumulated(b: Book, a: Assessment) {
    && a.bindings == BindingsOf(b, a.claim, Ever) && a.evidence == EvidenceOf(b, a.claim, Ever)
    && a.verifications == VerificationsOf(b, a.claim, Ever)
    && (a.decisions == set x | x in b.decisions && b.decisions[x].claim == a.claim)
    && (a.findings == set x | x in b.findings && b.findings[x].claim == a.claim)
  }

  predicate PointersClosed(b: Book, a: Assessment) {
    && (a.active.Some? ==> a.active.value in b.decisions)
    && (a.current.Some? ==> a.current.value in b.findings && b.findings[a.current.value].claim == a.claim)
    && (a.conflict ==> a.active == None && a.current == None)
  }

  function ExpectedState(b: Book, a: Assessment): (Disposition, Review)
    requires PointersClosed(b, a)
  {
    var baseline := if ReproducedOf(b, a.claim, Ever) != {} then Supported else Proposed;
    if a.active == None then (baseline, if a.conflict then HumanReviewed else Unreviewed) else
    match b.decisions[a.active.value].ruling
    case Accept => (AcceptedClaim, AcceptedReview)
    case Reject => (RejectedClaim, RejectedReview)
    case _ => (baseline, HumanReviewed)
  }

  function ExpectedStatus(b: Book, a: Assessment): Option<Status>
    requires PointersClosed(b, a)
  {
    if a.active == None then Some(if PassedOf(b, a.claim, Ever) != {} then VerifiedCandidate else UnverifiedCandidate) else
    match b.decisions[a.active.value].ruling
    case Accept => Some(Accepted)
    case Reject => Some(Rejected)
    case _ => None
  }

  predicate AcceptedExactly(b: Book, a: Assessment, f: Finding)
    requires PointersClosed(b, a)
  {
    && !a.conflict && a.active.Some? && b.decisions[a.active.value].ruling == Accept && f.decision == a.active
    && f.evidence == ReproducedOf(b, a.claim, Ever) && f.verifications == PassedOf(b, a.claim, Ever) != {}
  }

  predicate AssessmentExact(b: Book, a: Assessment) {
    && TraceAccumulated(b, a) && PointersClosed(b, a) && (a.disposition, a.review) == ExpectedState(b, a)
    && (a.current.Some? ==>
          var f := b.findings[a.current.value];
          && Some(f.status) == ExpectedStatus(b, a) && IsLatest(b, f)
          && (f.status == Accepted ==> AcceptedExactly(b, a, f)))
  }

  /** One assessment, with `findings_by_claim` already sorted. */
  method CheckAssessment(b: Book, a: Assessment, chains: map<string, seq<Finding>>) returns (ok: bool)
    requires Keyed(b) && Chains(b, chains)
    ensures ok <==> AssessmentExact(b, a)
  {
    if !TraceAccumulated(b, a) || !PointersClosed(b, a) || (a.disposition, a.review) != ExpectedState(b, a) { return false; }
    if a.current == None { return true; }
    var f := b.findings[a.current.value];
    if Some(f.status) != ExpectedStatus(b, a) { return false; }
    var rows := if a.claim in chains then chains[a.claim] else [];
    assert f in rows;
    ghost var i :| 0 <= i < |rows| && rows[i] == f;
    LinkAt(b, a.claim, rows, i);
    if rows != [] && f.id != rows[|rows| - 1].id {
      return false;
    }
    return f.status == Accepted ==> AcceptedExactly(b, a, f);
  }

  method CheckAssessments(b: Book, chains: map<string, seq<Finding>>) returns (ok: bool)
    requires Keyed(b) && Chains(b, chains)
    ensures ok <==> forall k :: k in b.assessments ==> AssessmentExact(b, b.assessments[k])
  {
    var pending := b.assessments.Keys;
    while pending != {}
      invariant pending <= b.assessments.Keys
      invariant forall k :: k in b.assessments && k !in pending ==> AssessmentExact(b, b.assessments[k])
      decreases |pending|
    {
      var k :| k in pending;
      var exact := CheckAssessment(b, b.assessments[k], chains);
      if !exact { return false; }
      pending := pending - {k};
    }
    return true;
  }

  // ---- Coverage ----------------------------------------------------------------------------------------------

  function Ids(s: Stage): set<string> { set x | x in s.ids }

  function SupportedExpected(b: Book): set<string> {
    set c | c in b.claims && ReproducedOf(b, c, Ever) != {} :: b.claims[c].obligation
  }

  function VerifiedExpected(b: Book): set<string> {
    set c | c in b.claims && PassedOf(b, c, Ever) != {} :: b.claims[c].obligation
  }

  /** The assessment stands accepted with a current accepted finding. */
  predicate StandsAccepted(b: Book, a: Assessment) {
    !a.conflict && a.disposition == AcceptedClaim && a.review == AcceptedReview &&
    a.current.Some? && a.current.value in b.findings && b.findings[a.current.value].status == Accepted
  }

  function AcceptedExpected(b: Book): set<string> {
    set c | c in b.assessments && c in b.claims && StandsAccepted(b, b.assessments[c]) :: b.claims[c].obligation
  }

  function VisitedExpected(b: Book, selected: set<string>): set<string> {
    set e, o | e in b.executions && o in b.executions[e].obligations && o in selected :: o
  }

  function StructuredObligations(b: Book): set<string> {
    set e, o | e in b.executions && b.executions[e].structured && o in b.executions[e].obligations :: o
  }

  predicate StageBounded(s: Stage, selected: set<string>) { Ids(s) <= selected && s.count == |Ids(s)| }

  predicate CoverageExact(b: Book, universe: string, selected: set<string>, c: Coverage) {
    && c.universe == universe && selected <= (set x | x in c.denominator) && c.selected == |selected|
    && StageBounded(c.visited, selected) && StageBounded(c.completed, selected) && StageBounded(c.evidenceSupported, selected)
    && StageBounded(c.verified, selected) && StageBounded(c.freshVerified, selected) && StageBounded(c.accepted, selected)
    && Ids(c.visited) == VisitedExpected(b, selected)
    && Ids(c.completed) <= StructuredObligations(b) * VisitedExpected(b, selected)
    && Ids(c.evidenceSupported) == SupportedExpected(b)
    && Ids(c.verified) == VerifiedExpected(b)
    && Ids(c.accepted) == AcceptedExpected(b)
    && Ids(c.freshVerified) == Ids(c.verified)
  }

  // ---- The whole contract ---------------------------------------------------------------------------------------

  function Keys<R>(rows: seq<R>, key: R -> EventKey): seq<EventKey> { seq(|rows|, i requires 0 <= i < |rows| => key(rows[i])) }

  function RegistrationKey(x: Registration): EventKey { EventKey(x.at, x.id) }
  function ExecutionKey(x: Execution): EventKey { EventKey(x.at, x.id) }
  function ClaimKey(x: Claim): EventKey { EventKey(x.at, x.id) }
  function EvidenceKey(x: Evidence): EventKey { EventKey(x.at, x.id) }
  function BindingKey(x: Binding): EventKey { EventKey(x.at, x.id) }
  function VerificationKey(x: Verification): EventKey { EventKey(x.at, x.id) }
  function DecisionKey(x: Decision): EventKey { EventKey(x.at, x.id) }

  predicate InOrder(keys: seq<EventKey>, confirmed: int) {
    Canonical(keys, EventLe) && forall k :: k in keys ==> k.at <= confirmed
  }

  predicate EventsOrdered(r: Report) {
    && InOrder(Keys(r.registrations, RegistrationKey), r.confirmed) && InOrder(Keys(r.executions, ExecutionKey), r.confirmed)
    && InOrder(Keys(r.claims, ClaimKey), r.confirmed) && InOrder(Keys(r.evidence, EvidenceKey), r.confirmed)
    && InOrder(Keys(r.bindings, BindingKey), r.confirmed) && InOrder(Keys(r.verifications, VerificationKey), r.confirmed)
    && InOrder(Keys(r.decisions, DecisionKey), r.confirmed) && InOrder(Keys(r.findings, FindingKey), r.confirmed)
  }

  predicate CoverageCanonical(c: Coverage) {
    && Canonical(c.denominator, TextLe) && Canonical(c.visited.ids, TextLe) && Canonical(c.completed.ids, TextLe)
    && Canonical(c.evidenceSupported.ids, TextLe) && Canonical(c.verified.ids, TextLe)
    && Canonical(c.freshVerified.ids, TextLe) && Canonical(c.accepted.ids, TextLe)
  }

  function AssessedClaims(rows: seq<Assessment>): seq<string> { seq(|rows|, i requires 0 <= i < |rows| => rows[i].claim) }

  predicate ListsCanonical(r: Report) {
    && Canonical(AssessedClaims(r.assessments), TextLe)
    && Canonical(r.selected, TextLe) && Canonical(r.artifacts, TextLe) && CoverageCanonical(r.coverage)
  }

  predicate RowsOrdered(r: Report) { EventsOrdered(r) && ListsCanonical(r) }

  function RegistrationIds(r: Report): set<string> { set x | x in r.registrations :: x.id }

  /** Registrations cited by executions, evidence and verifications. */
  function Referenced(b: Book): set<string> {
    (set e | e in b.executions :: b.executions[e].raw) +
    (set e | e in b.evidence :: b.evidence[e].input) + (set e | e in b.evidence :: b.evidence[e].output) +
    (set v | v in b.verifications :: b.verifications[v].input) + (set v | v in b.verifications :: b.verifications[v].output)
  }

  predicate TracesClosed(r: Report, b: Book) {
    && (set e, c | e in b.executions && c in b.executions[e].parsed :: c) == b.claims.Keys
    && (set x | x in r.artifacts) == RegistrationIds(r) == Referenced(b)
    && b.assessments.Keys == b.claims.Keys
  }

  ghost predicate AllRows<R>(rows: map<string, R>, passes: R -> bool) { forall k :: k in rows ==> passes(rows[k]) }

  ghost predicate BookExact(b: Book, context: Context) {
    && AllRows(b.claims, c => ClaimClosed(b, c)) && AllRows(b.bindings, x => BindingClosed(b, x))
    && AllRows(b.verifications, v => VerificationClosed(b, v)) && AllRows(b.decisions, d => DecisionExact(b, context, d))
    && AllRows(b.findings, f => FindingExact(b, f)) && AllRows(b.findings, f => Linked(b, f))
    && AllRows(b.assessments, a => AssessmentExact(b, a))
  }

  /** The checks made on the indexed report. */
  ghost predicate BookAccepted(r: Report, b: Book) {
    var selected := set o | o in r.selected;
    && TracesClosed(r, b) && BookExact(b, r.context)
    && CoverageExact(b, r.context.universe, selected, r.coverage) && Ids(r.coverage.accepted) <= Ids(r.coverage.verified)
  }

  /** What the checker accepts. */
  ghost predicate Accepts(r: Report) { RowsOrdered(r) && BookAccepted(r, BookOf(r)) }

  method CheckBook(b: Book, context: Context) returns (ok: bool)
    requires Keyed(b)
    ensures ok <==> BookExact(b, context)
  {
    var claims := CheckEach(b.claims, c => ClaimClosed(b, c));
    if !claims { return false; }
    var bindings := CheckEach(b.bindings, x => BindingClosed(b, x));
    if !bindings { return false; }
    var verifications := CheckEach(b.verifications, v => VerificationClosed(b, v));
    if !verifications { return false; }
    var decisions := CheckEach(b.decisions, d => DecisionExact(b, context, d));
    if !decisions { return false; }
    var findings := CheckEach(b.findings, f => FindingExact(b, f));
    if !findings { return false; }
    var linked, chains := CheckChains(b);
    if !linked { return false; }
    ok := CheckAssessments(b, chains);
  }

  /** `validate_report_v3_contract` from its row arrays on. */
  method Validate(r: Report) returns (ok: bool)
    ensures ok <==> Accepts(r)
  {
    if !RowsOrdered(r) { return false; }
    var b, selected := BookOf(r), set o | o in r.selected;
    BookIsKeyed(r);
    var exact := CheckBook(b, r.context);
    ok := exact && TracesClosed(r, b) && CoverageExact(b, r.context.universe, selected, r.coverage) &&
          Ids(r.coverage.accepted) <= Ids(r.coverage.verified);
  }

  // ---- What an accepted report guarantees ---------------------------------------------------------------------

  /** Decision `d` accepts claim `c`, citing exactly the claim, the bindings that reproduced it before
      the decision with their evidence, and the verifications that had passed on that evidence alone. */
  ghost predicate Authority(b: Book, c: string, d: string) {
    && d in b.decisions && b.decisions[d].claim == c && b.decisions[d].ruling == Accept
    && var at := b.decisions[d].at;
       exists bindings, evidence, passed ::
         && b.decisions[d].sources == {c} + bindings + evidence + passed && evidence != {} && passed != {}
         && (forall x :: x in bindings <==> x in b.bindings && b.bindings[x].claim == c && b.bindings[x].reproduces && b.bindings[x].at < at)
         && (forall e :: e in evidence <==> exists x :: x in bindings && b.bindings[x].evidence == e)
         && (forall v :: v in passed <==> v in b.verifications && b.verifications[v].claim == c && b.verifications[v].at < at &&
                                          b.verifications[v].outcome == Passed && {} < b.verifications[v].evidence <= evidence)
  }

  lemma ExactAcceptIsAuthority(b: Book, context: Context, d: string)
    requires d in b.decisions && DecisionExact(b, context, b.decisions[d]) && b.decisions[d].ruling == Accept
    ensures Authority(b, b.decisions[d].claim, d)
  {
    var row := b.decisions[d];
    var h := Before(row.at);
    var bindings, evidence, passed := ReproducingOf(b, row.claim, h), ReproducedOf(b, row.claim, h), PassedOf(b, row.claim, h);
    assert row.sources == {row.claim} + bindings + evidence + passed;
  }

  /** A claim that stands accepted has a passed verification, whatever the coverage lists say: the
      checker's later comparison of the two lists can never be what refuses a report. */
  lemma AcceptedAreVerified(b: Book, context: Context)
    requires Keyed(b) && BookExact(b, context)
    ensures AcceptedExpected(b) <= VerifiedExpected(b) <= SupportedExpected(b)
  {
    forall c | c in b.claims && c in b.assessments && StandsAccepted(b, b.assessments[c]) ensures PassedOf(b, c, Ever) != {} {
      assert AssessmentExact(b, b.assessments[c]);
    }
    forall c | c in b.claims && PassedOf(b, c, Ever) != {} ensures ReproducedOf(b, c, Ever) != {} {
      var v :| v in PassedOf(b, c, Ever);
    }
  }

  /** An accepted report: accepted, verified, evidence-supported and selected obligations nest, and
      every accepted obligation has a claim with an accept decision on that same claim. */
  lemma AuthorityTheorem(r: Report)
    requires Accepts(r)
    ensures Nested(r.coverage, set o | o in r.selected)
    ensures forall o :: o in r.coverage.accepted.ids ==> HasAuthority(BookOf(r), o)
  {
    BookIsKeyed(r);
    BookAuthority(r, BookOf(r));
  }

  predicate Nested(c: Coverage, selected: set<string>) {
    Ids(c.accepted) <= Ids(c.verified) <= Ids(c.evidenceSupported) <= selected
  }

  ghost predicate HasAuthority(b: Book, o: string) {
    exists c, d :: c in b.claims && b.claims[c].obligation == o && Authority(b, c, d)
  }

  lemma BookAuthority(r: Report, b: Book)
    requires Keyed(b) && BookAccepted(r, b)
    ensures Nested(r.coverage, set o | o in r.selected)
    ensures forall o :: o in r.coverage.accepted.ids ==> HasAuthority(b, o)
  {
    AcceptedAreVerified(b, r.context);
    AcceptedHaveAuthority(b, r.context, Ids(r.coverage.accepted));
    forall o | o in r.coverage.accepted.ids ensures HasAuthority(b, o) {
      assert o in Ids(r.coverage.accepted);
    }
  }

  lemma AcceptedHaveAuthority(b: Book, context: Context, accepted: set<string>)
    requires Keyed(b) && BookExact(b, context) && accepted == AcceptedExpected(b)
    ensures forall o :: o in accepted ==> HasAuthority(b, o)
  {
    forall o | o in accepted ensures HasAuthority(b, o) {
      var c :| c in b.assessments && c in b.claims && StandsAccepted(b, b.assessments[c]) && b.claims[c].obligation == o;
      var d := AcceptedHasDecision(b, context, c);
    }
  }

  lemma AcceptedHasDecision(b: Book, context: Context, c: string) returns (d: string)
    requires Keyed(b) && BookExact(b, context) && c in b.assessments && StandsAccepted(b, b.assessments[c])
    ensures Authority(b, c, d) && b.assessments[c].active == Some(d)
    ensures b.findings[b.assessments[c].current.value].decision == Some(d)
  {
    var a := b.assessments[c];
    assert AssessmentExact(b, a) && a.claim == c;
    var f := b.findings[a.current.value];
    assert AcceptedExactly(b, a, f) && FindingExact(b, f);
    d := a.active.value;
    assert DecisionExact(b, context, b.decisions[d]);
    ExactAcceptIsAuthority(b, context, d);
  }

  /** The current finding an assessment names. */
  function CurrentFinding(b: Book, c: string): Option<Finding> {
    if c in b.assessments && b.assessments[c].current.Some? && b.assessments[c].current.value in b.findings
    then Some(b.findings[b.assessments[c].current.value]) else None
  }

  /** Each claim's findings form one supersession chain in increasing (sequence, id) order, and a
      current finding is its last element. */
  lemma FindingsFormOneChain(r: Report, c: string, rows: seq<Finding>)
    requires Accepts(r) && ChainOf(BookOf(r), c, rows)
    ensures InChain(rows) && Increasing(rows)
    ensures CurrentFinding(BookOf(r), c).Some? ==> rows != [] && CurrentFinding(BookOf(r), c).value == rows[|rows| - 1]
  {
    BookIsKeyed(r);
    BookChains(BookOf(r), r.context, c, rows);
    AscendingIsIncreasing(rows);
  }

  /** Strictly increasing in (sequence, id). */
  predicate Increasing(rows: seq<Finding>) {
    forall i, j :: 0 <= i < j < |rows| ==> EventLt(FindingKey(rows[i]), FindingKey(rows[j]))
  }

  lemma AscendingIsIncreasing(rows: seq<Finding>)
    requires Ascends(rows)
    ensures Increasing(rows)
  {
    forall i, j | 0 <= i < j < |rows| ensures EventLt(FindingKey(rows[i]), FindingKey(rows[j])) {
      assert Precedes(rows[i], rows[j]);
    }
  }

  lemma BookChains(b: Book, context: Context, c: string, rows: seq<Finding>)
    requires Keyed(b) && BookExact(b, context) && ChainOf(b, c, rows)
    ensures InChain(rows)
    ensures CurrentFinding(b, c).Some? ==> rows != [] && CurrentFinding(b, c).value == rows[|rows| - 1]
  {
    AllLinked(b, context, c, rows);
    ChainIsLinks(b, c, rows);
    if CurrentFinding(b, c).Some? {
      CurrentIsLatest(b, context, c);
      LatestEndsTheChain(b, c, rows, CurrentFinding(b, c).value);
    }
  }

  lemma AllLinked(b: Book, context: Context, c: string, rows: seq<Finding>)
    requires BookExact(b, context) && ChainOf(b, c, rows)
    ensures forall f :: f in rows ==> Linked(b, f)
  {
    forall f | f in rows ensures Linked(b, f) {
      var x := f.id;
      assert x in b.findings && b.findings[x] == f;
    }
  }

  lemma LatestEndsTheChain(b: Book, c: string, rows: seq<Finding>, f: Finding)
    requires Keyed(b) && ChainOf(b, c, rows) && IsLatest(b, f) && f.claim == c && f.id in b.findings && b.findings[f.id] == f
    ensures rows != [] && f == rows[|rows| - 1]
  {
    assert f in rows;
    var i :| 0 <= i < |rows| && rows[i] == f;
    LinkAt(b, c, rows, i);
  }

  lemma CurrentIsLatest(b: Book, context: Context, c: string)
    requires Keyed(b) && BookExact(b, context) && CurrentFinding(b, c).Some?
    ensures var f := CurrentFinding(b, c).value; IsLatest(b, f) && f.claim == c && f.id in b.findings && b.findings[f.id] == f
  {
    assert AssessmentExact(b, b.assessments[c]);
  }

  /** The chain the lemma above speaks of always exists. */
  lemma EveryClaimHasItsChain(b: Book, c: string) returns (rows: seq<Finding>)
    requires Keyed(b)
    ensures ChainOf(b, c, rows)
  {
    rows := ChainUpTo(b, c, b.findings.Keys);
  }

  lemma HeadAscends(f: Finding, rest: seq<Finding>)
    requires Ascends(rest) && forall g :: g in rest ==> Precedes(f, g)
    ensures Ascends([f] + rest)
  {
    var rows := [f] + rest;
    forall i, j | 0 <= i < j < |rows| ensures Precedes(rows[i], rows[j]) {
      assert rows[j] == rest[j - 1] && rest[j - 1] in rest;
    }
  }

  lemma {:induction false} InsertIntoChain(front: seq<Finding>, f: Finding)
    requires Ascends(front) && forall g :: g in front ==> g.claim == f.claim && g.id != f.id
    ensures forall g :: g in Insert(f, front, FindingLe) <==> g == f || g in front
    ensures Ascends(Insert(f, front, FindingLe))
  {
    FindingLeIsTotal();
    if front == [] || FindingLe(f, front[0]) {
      forall g | g in front ensures Precedes(f, g) {
        var i :| 0 <= i < |front| && front[i] == g;
        assert i > 0 ==> Precedes(front[0], front[i]);
      }
      HeadAscends(f, front);
    } else {
      var rest := front[1..];
      assert front == [front[0]] + rest && front[0] in front;
      InsertIntoChain(rest, f);
      assert forall g :: g in rest ==> Precedes(front[0], g);
      HeadAscends(front[0], Insert(f, rest, FindingLe));
    }
  }

  lemma {:induction false} ChainUpTo(b: Book, c: string, ids: set<string>) returns (rows: seq<Finding>)
    requires Keyed(b) && ids <= b.findings.Keys
    ensures forall f :: f in rows <==> f.id in ids && b.findings[f.id] == f && f.claim == c
    ensures Ascends(rows)
    decreases |ids|
  {
    if ids == {} {
      rows := [];
    } else {
      var k :| k in ids;
      var front := ChainUpTo(b, c, ids - {k});
      var f := b.findings[k];
      if f.claim == c {
        rows := Insert(f, front, FindingLe);
        InsertIntoChain(front, f);
      } else {
        rows := front;
      }
    }
  }

  /** A finding that comes after every passed verification of its claim and cites all of them, and
      all reproduced evidence of the claim. */
  predicate Final(b: Book, c: string, f: Finding) {
    && IsLatest(b, f)
    && (forall v :: v in b.verifications && b.verifications[v].claim == c && b.verifications[v].outcome == Passed ==>
                      v in f.verifications && b.verifications[v].at < f.at)
    && (forall x :: x in b.bindings && b.bindings[x].claim == c && b.bindings[x].reproduces ==>
                      b.bindings[x].evidence in f.evidence)
  }

  /** Finality: a current accepted finding is the last word on its claim, and carries an accept
      decision on that claim whose passed verifications it cites too. */
  lemma AcceptedFindingIsFinal(r: Report, c: string)
    requires Accepts(r) && c in BookOf(r).assessments && StandsAccepted(BookOf(r), BookOf(r).assessments[c])
    ensures CurrentFinding(BookOf(r), c).Some? && Final(BookOf(r), c, CurrentFinding(BookOf(r), c).value)
    ensures exists d :: Authority(BookOf(r), c, d) && CurrentFinding(BookOf(r), c).value.decision == Some(d) &&
                        PassedOf(BookOf(r), c, Before(BookOf(r).decisions[d].at)) <= CurrentFinding(BookOf(r), c).value.verifications
  {
    BookIsKeyed(r);
    CurrentAcceptedIsFinal(BookOf(r), r.context, c);
  }

  /** The current accepted finding, what it cites, and the decision behind it. */
  lemma CurrentAcceptedCites(b: Book, context: Context, c: string) returns (f: Finding, d: string)
    requires Keyed(b) && BookExact(b, context) && c in b.assessments && StandsAccepted(b, b.assessments[c])
    ensures CurrentFinding(b, c) == Some(f) && f.claim == c && IsLatest(b, f)
    ensures f.evidence == ReproducedOf(b, c, Ever) && f.verifications == PassedOf(b, c, Ever) == PassedOf(b, c, Before(f.at))
    ensures Authority(b, c, d) && f.decision == Some(d)
  {
    d := AcceptedHasDecision(b, context, c);
    f := b.findings[b.assessments[c].current.value];
    assert AssessmentExact(b, b.assessments[c]) && FindingExact(b, f);
  }

  lemma CitesAllIsFinal(b: Book, c: string, f: Finding)
    requires AllRows(b.verifications, v => VerificationClosed(b, v)) && IsLatest(b, f)
    requires forall v :: v in b.verifications ==> b.verifications[v].id == v
    requires f.evidence == ReproducedOf(b, c, Ever) && f.verifications == PassedOf(b, c, Ever) == PassedOf(b, c, Before(f.at))
    ensures Final(b, c, f)
  {
    forall v | v in b.verifications && b.verifications[v].claim == c && b.verifications[v].outcome == Passed
      ensures v in f.verifications && b.verifications[v].at < f.at
    {
      assert VerificationClosed(b, b.verifications[v]);
      assert v in PassedOf(b, c, Ever) && v in PassedOf(b, c, Before(f.at));
    }
    forall x | x in b.bindings && b.bindings[x].claim == c && b.bindings[x].reproduces ensures b.bindings[x].evidence in f.evidence {
      assert x in ReproducingOf(b, c, Ever);
    }
  }

  lemma CurrentAcceptedIsFinal(b: Book, context: Context, c: string)
    requires Keyed(b) && BookExact(b, context) && c in b.assessments && StandsAccepted(b, b.assessments[c])
    ensures CurrentFinding(b, c).Some? && Final(b, c, CurrentFinding(b, c).value)
    ensures exists d :: Authority(b, c, d) && CurrentFinding(b, c).value.decision == Some(d) &&
                        PassedOf(b, c, Before(b.decisions[d].at)) <= CurrentFinding(b, c).value.verifications
  {
    var f, d := CurrentAcceptedCites(b, context, c);
    CitesAllIsFinal(b, c, f);
    TraceGrows(b, c, b.decisions[d].at, Ever);
  }

  // ---- Rows the index hides ---------------------------------------------------------------------------------------

  /** Every row is checked exactly when no id repeats. */
  lemma IndexCoversRowsIffIdsDistinct<R>(rows: seq<R>, id: R -> string)
    requires Distinct(rows)
    ensures (forall i :: 0 <= i < |rows| ==> id(rows[i]) in Index(rows, id) && Index(rows, id)[id(rows[i])] == rows[i]) <==>
            (forall i, j :: 0 <= i < j < |rows| ==> id(rows[i]) != id(rows[j]))
  {
    forall i | 0 <= i < |rows| && forall j :: 0 <= j < |rows| && j != i ==> id(rows[i]) != id(rows[j])
      ensures id(rows[i]) in Index(rows, id) && Index(rows, id)[id(rows[i])] == rows[i]
    {
      IndexHoldsTheLast(rows, id, id(rows[i]));
    }
  }

  lemma UpdateHides<V>(m: map<string, V>, w: map<string, V>, k: string, v: V)
    requires m - {k} == w - {k}
    ensures m[k := v] == w[k := v]
  {
    forall x | x != k ensures x in m <==> x in w {
      assert x in m <==> x in m - {k};
      assert x in w <==> x in w - {k};
    }
    forall x | x != k && x in m ensures m[x] == w[x] {
      assert m[x] == (m - {k})[x] && w[x] == (w - {k})[x];
    }
  }

  lemma UpdateAgrees<V>(m: map<string, V>, w: map<string, V>, k: string, j: string, v: V)
    requires m - {k} == w - {k}
    ensures m[j := v] - {k} == w[j := v] - {k}
  {
    assert m[j := v] - {k} == if j == k then m - {k} else (m - {k})[j := v];
    assert w[j := v] - {k} == if j == k then w - {k} else (w - {k})[j := v];
  }

  lemma {:induction false} ShadowedRowLeavesIndex<R>(rows: seq<R>, x: R, i: nat, j: nat, id: R -> string)
    requires i <= j < |rows| && id(x) == id(rows[j])
    ensures Index(rows[..i] + [x] + rows[i..], id) == Index(rows, id)
    decreases |rows|
  {
    var n, wide := |rows| - 1, rows[..i] + [x] + rows[i..];
    var front := rows[..n];
    assert wide[..|wide| - 1] == front[..i] + [x] + front[i..] && wide[|wide| - 1] == rows[n];
    if j < n {
      ShadowedRowLeavesIndex(front, x, i, j, id);
    } else {
      IndexUpToKey(front, x, i, id);
      UpdateHides(Index(wide[..|wide| - 1], id), Index(front, id), id(x), rows[n]);
    }
  }

  lemma {:induction false} IndexUpToKey<R>(rows: seq<R>, x: R, i: nat, id: R -> string)
    requires i <= |rows|
    ensures Index(rows[..i] + [x] + rows[i..], id) - {id(x)} == Index(rows, id) - {id(x)}
    decreases |rows|
  {
    var wide := rows[..i] + [x] + rows[i..];
    if i == |rows| {
      assert wide[..|wide| - 1] == rows && wide[|wide| - 1] == x;
      assert Index(rows, id)[id(x) := x] - {id(x)} == Index(rows, id) - {id(x)};
    } else {
      var n := |rows| - 1;
      var front := rows[..n];
      IndexUpToKey(front, x, i, id);
      assert wide[..|wide| - 1] == front[..i] + [x] + front[i..] && wide[|wide| - 1] == rows[n];
      UpdateAgrees(Index(wide[..|wide| - 1], id), Index(front, id), id(x), id(rows[n]), rows[n]);
    }
  }

  /** What is accepted of a report is decided by its order, its index and what is not a row. */
  lemma SameIndexAccepted(r: Report, w: Report)
    requires Accepts(r) && EventsOrdered(w) && BookOf(w) == BookOf(r)
    requires w == r.(bindings := w.bindings, verifications := w.verifications, decisions := w.decisions, findings := w.findings)
    ensures Accepts(w)
  {
    assert RegistrationIds(w) == RegistrationIds(r);
  }

  /** The order check is on (sequence, id), so an earlier decision may reuse a later one's id.  The
      index then holds only the later row, and the earlier one is accepted whatever it says. */
  lemma ShadowedDecisionEscapes(r: Report, d: Decision, i: nat, j: nat, rows: seq<Decision>)
    requires Accepts(r) && i <= j < |r.decisions| && d.id == r.decisions[j].id
    requires rows == r.decisions[..i] + [d] + r.decisions[i..] && InOrder(Keys(rows, DecisionKey), r.confirmed)
    ensures Accepts(r.(decisions := rows))
  {
    ShadowedRowLeavesIndex(r.decisions, d, i, j, DecisionId);
    SameIndexAccepted(r, r.(decisions := rows));
  }

  lemma ShadowedFindingEscapes(r: Report, f: Finding, i: nat, j: nat, rows: seq<Finding>)
    requires Accepts(r) && i <= j < |r.findings| && f.id == r.findings[j].id
    requires rows == r.findings[..i] + [f] + r.findings[i..] && InOrder(Keys(rows, FindingKey), r.confirmed)
    ensures Accepts(r.(findings := rows))
  {
    ShadowedRowLeavesIndex(r.findings, f, i, j, FindingId);
    SameIndexAccepted(r, r.(findings := rows));
  }

  lemma ShadowedVerificationEscapes(r: Report, v: Verification, i: nat, j: nat, rows: seq<Verification>)
    requires Accepts(r) && i <= j < |r.verifications| && v.id == r.verifications[j].id
    requires rows == r.verifications[..i] + [v] + r.verifications[i..] && InOrder(Keys(rows, VerificationKey), r.confirmed)
    ensures Accepts(r.(verifications := rows))
  {
    ShadowedRowLeavesIndex(r.verifications, v, i, j, VerificationId);
    SameIndexAccepted(r, r.(verifications := rows));
  }

  lemma ShadowedBindingEscapes(r: Report, x: Binding, i: nat, j: nat, rows: seq<Binding>)
    requires Accepts(r) && i <= j < |r.bindings| && x.id == r.bindings[j].id
    requires rows == r.bindings[..i] + [x] + r.bindings[i..] && InOrder(Keys(rows, BindingKey), r.confirmed)
    ensures Accepts(r.(bindings := rows))
  {
    ShadowedRowLeavesIndex(r.bindings, x, i, j, BindingId);
    SameIndexAccepted(r, r.(bindings := rows));
  }
}
