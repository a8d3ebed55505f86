/** When a decision may be made (scripts/validate_bundle.py).

    The checker orders a decision against the bindings and verifications it cites, and a finding against
    those it cites, but not the two against each other. */
module AuthorityTiming {
  import opened Wrappers
  import opened Ordering
  import opened AuthorityTrace

  // ---- A decision moved in time -----------------------------------------------------------------------

  /** A row whose id nothing else carries is what the index holds under it. */
  lemma FreshRowInIndex<R>(rest: seq<R>, x: R, i: nat, id: R -> string)
    requires i <= |rest| && forall y :: y in rest ==> id(y) != id(x)
    ensures Index(rest[..i] + [x] + rest[i..], id) == Index(rest, id)[id(x) := x]
  {
    var wide := rest[..i] + [x] + rest[i..];
    IndexUpToKey(rest, x, i, id);
    IndexHoldsTheLast(wide, id, id(x));
    assert wide[i] == x;
    UpdateHides(Index(wide, id), Index(rest, id), id(x), x);
  }

  /** The book with one decision made at another time. */
  function Redated(b: Book, d: Decision, at: int): Book { b.(decisions := b.decisions[d.id := d.(at := at)]) }

  /** No trace looks at decisions. */
  lemma SameTraces(b: Book, w: Book, claim: string, h: Horizon)
    requires w == b.(decisions := w.decisions)
    ensures BindingsOf(w, claim, h) == BindingsOf(b, claim, h) && EvidenceOf(w, claim, h) == EvidenceOf(b, claim, h)
    ensures ReproducingOf(w, claim, h) == ReproducingOf(b, claim, h) && ReproducedOf(w, claim, h) == ReproducedOf(b, claim, h)
    ensures VerificationsOf(w, claim, h) == VerificationsOf(b, claim, h) && NonpassedOf(w, claim, h) == NonpassedOf(b, claim, h)
    ensures PassedOf(w, claim, h) == PassedOf(b, claim, h)
  {
    assert BindingsOf(w, claim, h) == BindingsOf(b, claim, h);
    assert ReproducingOf(w, claim, h) == ReproducingOf(b, claim, h);
    assert VerificationsOf(w, claim, h) == VerificationsOf(b, claim, h);
  }

  /** Claims, bindings, verifications and findings are judged as before. */
  lemma OtherRowsUnmoved(b: Book, d: Decision, at: int)
    requires d.id in b.decisions && b.decisions[d.id] == d
    ensures forall c :: ClaimClosed(Redated(b, d, at), c) <==> ClaimClosed(b, c)
    ensures forall x :: BindingClosed(Redated(b, d, at), x) <==> BindingClosed(b, x)
    ensures forall v :: VerificationClosed(Redated(b, d, at), v) <==> VerificationClosed(b, v)
    ensures forall f :: FindingExact(Redated(b, d, at), f) <==> FindingExact(b, f)
    ensures forall f :: Linked(Redated(b, d, at), f) <==> Linked(b, f)
  {
    var w := Redated(b, d, at);
    forall v: Verification ensures VerificationClosed(w, v) <==> VerificationClosed(b, v) { SameTraces(b, w, v.claim, Ever); }
    forall f: Finding ensures FindingExact(w, f) <==> FindingExact(b, f) { SameTraces(b, w, f.claim, Before(f.at)); }
  }

  lemma AssessmentsUnmoved(b: Book, d: Decision, at: int, a: Assessment)
    requires d.id in b.decisions && b.decisions[d.id] == d
    ensures AssessmentExact(Redated(b, d, at), a) <==> AssessmentExact(b, a)
  {
    var w := Redated(b, d, at);
    SameTraces(b, w, a.claim, Ever);
    assert (set x | x in w.decisions && w.decisions[x].claim == a.claim) == set x | x in b.decisions && b.decisions[x].claim == a.claim;
    assert (set x | x in w.findings && w.findings[x].claim == a.claim) == set x | x in b.findings && b.findings[x].claim == a.claim;
  }

  lemma DecisionsUnmoved(b: Book, context: Context, d: Decision, at: int, x: Decision)
    requires d.id in b.decisions && b.decisions[d.id] == d
    ensures DecisionExact(Redated(b, d, at), context, x) <==> DecisionExact(b, context, x)
  {
    var w := Redated(b, d, at);
    SameTraces(b, w, x.claim, Before(x.at));
    if x.ruling == Defer {
      var nonpassed := NonpassedOf(b, x.claim, Before(x.at));
      assert (set v, e | v in nonpassed && e in w.verifications[v].evidence :: e) == set v, e | v in nonpassed && e in b.verifications[v].evidence :: e;
    }
    assert DecisionSources(w, x) == DecisionSources(b, x);
  }

  /** The book stays exact just when the decision is exact at its new time. */
  lemma RedatedBookExact(b: Book, context: Context, d: Decision, at: int)
    requires BookExact(b, context) && d.id in b.decisions && b.decisions[d.id] == d
    ensures BookExact(Redated(b, d, at), context) <==> DecisionExact(b, context, d.(at := at))
  {
    var w := Redated(b, d, at);
    OtherRowsUnmoved(b, d, at);
    forall k | k in w.assessments ensures AssessmentExact(w, w.assessments[k]) { AssessmentsUnmoved(b, d, at, w.assessments[k]); }
    forall k | k in w.decisions ensures DecisionExact(w, context, w.decisions[k]) <==> DecisionExact(b, context, w.decisions[k]) {
      DecisionsUnmoved(b, context, d, at, w.decisions[k]);
    }
    assert w.decisions[d.id] == d.(at := at);
    if DecisionExact(b, context, d.(at := at)) {
      assert AllRows(w.decisions, x => DecisionExact(w, context, x));
    }
  }

  /** The claim's reproducing bindings and passed verifications are the same at both horizons. */
  predicate SameAuthority(b: Book, claim: string, h: Horizon, k: Horizon) {
    ReproducingOf(b, claim, h) == ReproducingOf(b, claim, k) && PassedOf(b, claim, h) == PassedOf(b, claim, k)
  }

  /** Ids of different kinds of row are different. */
  predicate KindsApart(b: Book) {
    b.claims.Keys !! b.bindings.Keys && (b.claims.Keys + b.bindings.Keys) !! b.evidence.Keys &&
    (b.claims.Keys + b.bindings.Keys + b.evidence.Keys) !! b.verifications.Keys
  }

  /** An accept decision is as exact at another time as at its own when nothing that counts lies between,
      and, when ids tell kinds apart, only then. */
  lemma AcceptAtAnotherTime(b: Book, context: Context, d: Decision, at: int)
    requires BookExact(b, context) && DecisionExact(b, context, d) && d.ruling == Accept
    ensures SameAuthority(b, d.claim, Before(d.at), Before(at)) ==> DecisionExact(b, context, d.(at := at))
    ensures KindsApart(b) && DecisionExact(b, context, d.(at := at)) ==> SameAuthority(b, d.claim, Before(d.at), Before(at))
  {
    var c := d.claim;
    if SameAuthority(b, c, Before(d.at), Before(at)) {
      assert ReproducedOf(b, c, Before(d.at)) == ReproducedOf(b, c, Before(at));
    }
    if KindsApart(b) && DecisionExact(b, context, d.(at := at)) {
      SourcesByKind(b, c, Before(d.at), d.sources);
      SourcesByKind(b, c, Before(at), d.sources);
    }
  }

  /** The bindings and verifications among an accept decision's sources are its two traces. */
  lemma SourcesByKind(b: Book, c: string, h: Horizon, sources: set<string>)
    requires KindsApart(b) && c in b.claims && AllRows(b.bindings, x => BindingClosed(b, x))
    requires sources == {c} + ReproducedOf(b, c, h) + PassedOf(b, c, h) + ReproducingOf(b, c, h)
    ensures sources * b.bindings.Keys == ReproducingOf(b, c, h) && sources * b.verifications.Keys == PassedOf(b, c, h)
  {
    forall e | e in ReproducedOf(b, c, h) ensures e in b.evidence {
      var x :| x in ReproducingOf(b, c, h) && b.bindings[x].evidence == e;
      assert BindingClosed(b, b.bindings[x]);
    }
  }

  /** The report with a decision row taken out, re-timed and put back in another place. */
  function Moved(r: Report, rest: seq<Decision>, d: Decision, j: nat, at: int, confirmed: int): Report
    requires j <= |rest|
  {
    r.(decisions := rest[..j] + [d.(at := at)] + rest[j..], confirmed := confirmed)
  }

  /** `d` is the decision at place `i` of the report, and its id is its own. */
  predicate IsDecision(r: Report, rest: seq<Decision>, d: Decision, i: nat) {
    i <= |rest| && r.decisions == rest[..i] + [d] + rest[i..] && forall x :: x in rest ==> x.id != d.id
  }

  lemma MovedIndex(rows: seq<Decision>, rest: seq<Decision>, d: Decision, i: nat, j: nat, row: Decision)
    requires i <= |rest| && j <= |rest| && rows == rest[..i] + [d] + rest[i..] && row.id == d.id && forall x :: x in rest ==> x.id != d.id
    ensures Index(rest[..j] + [row] + rest[j..], DecisionId) == Index(rows, DecisionId)[d.id := row]
    ensures d.id in Index(rows, DecisionId) && Index(rows, DecisionId)[d.id] == d
  {
    FreshRowInIndex(rest, d, i, DecisionId);
    FreshRowInIndex(rest, row, j, DecisionId);
  }

  lemma MovedBook(r: Report, rest: seq<Decision>, d: Decision, i: nat, j: nat, at: int, confirmed: int)
    requires IsDecision(r, rest, d, i) && j <= |rest|
    ensures BookOf(Moved(r, rest, d, j, at, confirmed)) == Redated(BookOf(r), d, at)
    ensures d.id in BookOf(r).decisions && BookOf(r).decisions[d.id] == d
  {
    MovedIndex(r.decisions, rest, d, i, j, d.(at := at));
  }

  lemma InOrderStays(keys: seq<EventKey>, n: int, m: int)
    requires InOrder(keys, n) && n <= m
    ensures InOrder(keys, m)
  {}

  lemma MovedRowsOrdered(r: Report, rest: seq<Decision>, d: Decision, j: nat, at: int, confirmed: int)
    requires RowsOrdered(r) && j <= |rest| && r.confirmed <= confirmed
    ensures var moved := Moved(r, rest, d, j, at, confirmed);
            RowsOrdered(moved) <==> InOrder(Keys(moved.decisions, DecisionKey), confirmed)
  {
    InOrderStays(Keys(r.registrations, RegistrationKey), r.confirmed, confirmed);
    InOrderStays(Keys(r.executions, ExecutionKey), r.confirmed, confirmed);
    InOrderStays(Keys(r.claims, ClaimKey), r.confirmed, confirmed);
    InOrderStays(Keys(r.evidence, EvidenceKey), r.confirmed, confirmed);
    InOrderStays(Keys(r.bindings, BindingKey), r.confirmed, confirmed);
    InOrderStays(Keys(r.verifications, VerificationKey), r.confirmed, confirmed);
    InOrderStays(Keys(r.findings, FindingKey), r.confirmed, confirmed);
  }

  lemma SameExpected(b: Book, w: Book, selected: set<string>)
    requires w == b.(decisions := w.decisions)
    requires forall x :: ReproducedOf(w, x, Ever) == ReproducedOf(b, x, Ever) && PassedOf(w, x, Ever) == PassedOf(b, x, Ever)
    ensures SupportedExpected(w) == SupportedExpected(b) && VerifiedExpected(w) == VerifiedExpected(b)
    ensures AcceptedExpected(w) == AcceptedExpected(b) && VisitedExpected(w, selected) == VisitedExpected(b, selected)
    ensures StructuredObligations(w) == StructuredObligations(b)
  {
    assert SupportedExpected(w) == SupportedExpected(b);
    assert VerifiedExpected(w) == VerifiedExpected(b);
    assert AcceptedExpected(w) == AcceptedExpected(b);
  }

  lemma SameCoverage(b: Book, w: Book, universe: string, selected: set<string>, c: Coverage)
    requires w == b.(decisions := w.decisions) && CoverageExact(b, universe, selected, c)
    ensures CoverageExact(w, universe, selected, c)
  {
    forall x ensures ReproducedOf(w, x, Ever) == ReproducedOf(b, x, Ever) && PassedOf(w, x, Ever) == PassedOf(b, x, Ever) {
      SameTraces(b, w, x, Ever);
    }
    SameExpected(b, w, selected);
  }

  lemma SameClosure(r: Report, v: Report, b: Book, w: Book)
    requires TracesClosed(r, b) && w == b.(decisions := w.decisions) && v == r.(decisions := v.decisions, confirmed := v.confirmed)
    ensures TracesClosed(v, w)
  {
    assert RegistrationIds(v) == RegistrationIds(r);
    assert Referenced(w) == Referenced(b);
  }

  /** What is checked of a report besides its row order, taken with its book. */
  lemma MovedAccepted(r: Report, v: Report, b: Book, w: Book)
    requires BookAccepted(r, b) && w == b.(decisions := w.decisions) && v == r.(decisions := v.decisions, confirmed := v.confirmed)
    ensures BookAccepted(v, w) <==> BookExact(w, r.context)
  {
    SameCoverage(b, w, r.context.universe, (set o | o in r.selected), r.coverage);
    SameClosure(r, v, b, w);
  }

  /** A decision re-timed: the report stays accepted just when its row is in order and it is exact at its new time. */
  lemma DecisionMoved(r: Report, rest: seq<Decision>, d: Decision, i: nat, j: nat, at: int, confirmed: int)
    requires Accepts(r) && IsDecision(r, rest, d, i) && j <= |rest| && r.confirmed <= confirmed
    ensures BookExact(BookOf(r), r.context) && DecisionExact(BookOf(r), r.context, d)
    ensures var moved := Moved(r, rest, d, j, at, confirmed);
            Accepts(moved) <==> InOrder(Keys(moved.decisions, DecisionKey), confirmed) && DecisionExact(BookOf(r), r.context, d.(at := at))
  {
    var b := BookOf(r);
    MovedBook(r, rest, d, i, j, at, confirmed);
    MovedRowsOrdered(r, rest, d, j, at, confirmed);
    assert DecisionExact(b, r.context, b.decisions[d.id]);
    RedatedBookExact(b, r.context, d, at);
    MovedAccepted(r, Moved(r, rest, d, j, at, confirmed), b, Redated(b, d, at));
  }

  /** An accept decision of an accepted report may be made at any other time, earlier or later, at which its
      row is in order and its claim's reproducing bindings and passed verifications are the same; and when
      ids tell kinds of row apart, at no other time.  Where the findings that name it stand plays no part. */
  lemma AcceptDecisionMayMove(r: Report, rest: seq<Decision>, d: Decision, i: nat, j: nat, at: int, confirmed: int)
    requires Accepts(r) && IsDecision(r, rest, d, i) && j <= |rest| && d.ruling == Accept && r.confirmed <= confirmed
    ensures var moved, b := Moved(r, rest, d, j, at, confirmed), BookOf(r);
            var fits := InOrder(Keys(moved.decisions, DecisionKey), confirmed) && SameAuthority(b, d.claim, Before(d.at), Before(at));
            (fits ==> Accepts(moved)) && (KindsApart(b) ==> (Accepts(moved) <==> fits))
  {
    DecisionMoved(r, rest, d, i, j, at, confirmed);
    AcceptAtAnotherTime(BookOf(r), r.context, d, at);
  }

  lemma RejectAtAnotherTime(b: Book, context: Context, d: Decision, at: int)
    requires DecisionExact(b, context, d) && d.ruling in {Reject, Exception}
    ensures DecisionExact(b, context, d.(at := at))
  {
  }

  /** A rejection or an exception cites its claim alone, and may be made at any time its row is in order. */
  lemma RejectDecisionMayMove(r: Report, rest: seq<Decision>, d: Decision, i: nat, j: nat, at: int, confirmed: int)
    requires Accepts(r) && IsDecision(r, rest, d, i) && j <= |rest| && d.ruling in {Reject, Exception} && r.confirmed <= confirmed
    ensures var moved := Moved(r, rest, d, j, at, confirmed); Accepts(moved) <==> InOrder(Keys(moved.decisions, DecisionKey), confirmed)
  {
    DecisionMoved(r, rest, d, i, j, at, confirmed);
    RejectAtAnotherTime(BookOf(r), r.context, d, at);
  }

  // ---- A decision after the finding that carries it --------------------------------------------------------

  /** Every finding that names the decision is earlier than it. */
  predicate FollowsItsFindings(b: Book, d: string) {
    d in b.decisions && forall f :: f in b.findings && b.findings[f].decision == Some(d) ==> b.findings[f].at < b.decisions[d].at
  }

  predicate Increases(keys: seq<EventKey>) {
    forall i, j :: 0 <= i < j < |keys| ==> EventLe(keys[i], keys[j]) && keys[i] != keys[j]
  }

  lemma LastIncreases(keys: seq<EventKey>, i: nat, confirmed: int, key: EventKey, next: seq<EventKey>)
    requires i < |keys| && Increases(keys) && (forall k :: k in keys ==> k.at <= confirmed) && confirmed < key.at
    requires next == keys[..i] + keys[i + 1..] + [key]
    ensures Increases(next) && forall k :: k in next ==> k.at <= key.at
  {
    var n := |keys| - 1;
    forall k | 0 <= k < n ensures next[k] == keys[if k < i then k else k + 1] && next[k].at <= confirmed {
      assert keys[if k < i then k else k + 1] in keys;
    }
    assert next[n] == key;
  }

  /** Leaving a key out, and adding a later one at the end, keeps an ordered list in order. */
  lemma LastInOrder(keys: seq<EventKey>, i: nat, confirmed: int, key: EventKey)
    requires i < |keys| && InOrder(keys, confirmed) && confirmed < key.at
    ensures InOrder(keys[..i] + keys[i + 1..] + [key], key.at)
  {
    var next := keys[..i] + keys[i + 1..] + [key];
    EventLeIsTotalOrder();
    CanonicalIsStrictlyIncreasing(keys, EventLe);
    CanonicalIsStrictlyIncreasing(next, EventLe);
    LastIncreases(keys, i, confirmed, key, next);
  }

  lemma LastKeys(r: Report, rest: seq<Decision>, d: Decision, i: nat, row: Decision)
    requires IsDecision(r, rest, d, i)
    ensures var keys := Keys(r.decisions, DecisionKey);
            Keys(rest[..|rest|] + [row] + rest[|rest|..], DecisionKey) == keys[..i] + keys[i + 1..] + [DecisionKey(row)]
  {
    assert rest[..|rest|] + [row] + rest[|rest|..] == rest + [row];
  }

  lemma FindingsAreConfirmed(r: Report, f: string)
    requires InOrder(Keys(r.findings, FindingKey), r.confirmed) && f in BookOf(r).findings
    ensures BookOf(r).findings[f].at <= r.confirmed
  {
    IndexHoldsTheLast(r.findings, FindingId, f);
    var i :| 0 <= i < |r.findings| && r.findings[i] == BookOf(r).findings[f];
    var keys := Keys(r.findings, FindingKey);
    assert keys[i] in keys && keys[i] == FindingKey(r.findings[i]);
  }

  /** A finding may carry a decision not yet made: once a claim has all its reproducing bindings and passed
      verifications, its accept decision can be put off until after every other event of the report. */
  lemma DecisionMayFollowItsFindings(r: Report, rest: seq<Decision>, d: Decision, i: nat, at: int)
    requires Accepts(r) && IsDecision(r, rest, d, i) && d.ruling == Accept && at > r.confirmed
    requires SameAuthority(BookOf(r), d.claim, Before(d.at), Before(at))
    ensures Accepts(Moved(r, rest, d, |rest|, at, at)) && FollowsItsFindings(BookOf(Moved(r, rest, d, |rest|, at, at)), d.id)
  {
    var late := Moved(r, rest, d, |rest|, at, at);
    LastKeys(r, rest, d, i, d.(at := at));
    LastInOrder(Keys(r.decisions, DecisionKey), i, r.confirmed, DecisionKey(d.(at := at)));
    AcceptDecisionMayMove(r, rest, d, i, |rest|, at, at);
    MovedBook(r, rest, d, i, |rest|, at, at);
    forall f | f in BookOf(r).findings ensures BookOf(r).findings[f].at <= r.confirmed { FindingsAreConfirmed(r, f); }
    assert BookOf(late).findings == BookOf(r).findings && BookOf(late).decisions[d.id].at == at;
  }

  // ---- An accepted report -----------------------------------------------------------------------------------

  /** One claim, reproduced at 4, verified at 5, found at one time and decided at another. */
  function OneClaim(context: Context, found: int, decided: int, confirmed: int): Report {
    var stage := Stage(["o"], 1);
    Report([Execution(1, "x", "e", {"o"}, {"c"}, true, "g")], [Claim(1, "c", "e", "x", "o", "p")], [Evidence(3, "v", "g", "g")],
           [Binding(4, "b", "c", "v", true, "p")], [Verification(5, "w", "c", Passed, {"v"}, "g", "g")],
           [Decision(decided, "d", "c", Accept, {"c", "v", "w", "b"}, "p", context)],
           [Finding(found, "f", "c", Accepted, {"v"}, {"w"}, Some("d"), None)],
           [Assessment("c", {"b"}, {"v"}, {"w"}, {"d"}, {"f"}, Some("d"), Some("f"), false, AcceptedClaim, AcceptedReview)],
           [Registration(1, "g")], confirmed, context, ["o"], ["g"],
           Coverage(context.universe, ["o"], 1, stage, stage, stage, stage, stage, stage))
  }

  function OneClaimBook(r: Report): Book
    requires |r.executions| == |r.claims| == |r.evidence| == |r.bindings| == |r.verifications| == 1
    requires |r.decisions| == |r.findings| == |r.assessments| == 1
  {
    Book(map["x" := r.executions[0]], map["c" := r.claims[0]], map["v" := r.evidence[0]], map["b" := r.bindings[0]],
         map["w" := r.verifications[0]], map["d" := r.decisions[0]], map["f" := r.findings[0]], map["c" := r.assessments[0]])
  }

  lemma IndexOfOne<R>(rows: seq<R>, id: R -> string)
    requires |rows| == 1
    ensures Index(rows, id) == map[id(rows[0]) := rows[0]]
  {
    assert rows[..0] == [];
  }

  lemma OneClaimIndexed(r: Report, context: Context, found: int, decided: int, confirmed: int)
    requires r == OneClaim(context, found, decided, confirmed)
    ensures BookOf(r) == OneClaimBook(r)
  {
    IndexOfOne(r.executions, ExecutionId);
    IndexOfOne(r.claims, ClaimId);
    IndexOfOne(r.evidence, EvidenceId);
    IndexOfOne(r.bindings, BindingId);
    IndexOfOne(r.verifications, VerificationId);
    IndexOfOne(r.decisions, DecisionId);
    IndexOfOne(r.findings, FindingId);
    IndexOfOne(r.assessments, AssessmentId);
  }

  lemma OneInOrder<R>(rows: seq<R>, key: R -> EventKey, confirmed: int)
    requires |rows| == 1
    ensures InOrder(Keys(rows, key), confirmed) <==> key(rows[0]).at <= confirmed
  {
    var keys := Keys(rows, key);
    EventLeIsTotalOrder();
    CanonicalIsStrictlyIncreasing(keys, EventLe);
    assert keys[0] in keys && keys[0] == key(rows[0]);
  }

  lemma OneIsCanonical(ids: seq<string>)
    requires |ids| == 1
    ensures Canonical(ids, TextLe)
  {
    TextLeIsTotalPreorder();
    CanonicalIsStrictlyIncreasing(ids, TextLe);
  }

  lemma OneClaimEvents(r: Report)
    requires |r.registrations| == |r.executions| == |r.claims| == |r.evidence| == |r.bindings| == |r.verifications| == 1
    requires |r.decisions| == |r.findings| == 1
    ensures EventsOrdered(r) <==>
            && r.registrations[0].at <= r.confirmed && r.executions[0].at <= r.confirmed && r.claims[0].at <= r.confirmed
            && r.evidence[0].at <= r.confirmed && r.bindings[0].at <= r.confirmed && r.verifications[0].at <= r.confirmed
            && r.decisions[0].at <= r.confirmed && r.findings[0].at <= r.confirmed
  {
    OneInOrder(r.registrations, RegistrationKey, r.confirmed);
    OneInOrder(r.executions, ExecutionKey, r.confirmed);
    OneInOrder(r.claims, ClaimKey, r.confirmed);
    OneInOrder(r.evidence, EvidenceKey, r.confirmed);
    OneInOrder(r.bindings, BindingKey, r.confirmed);
    OneInOrder(r.verifications, VerificationKey, r.confirmed);
    OneInOrder(r.decisions, DecisionKey, r.confirmed);
    OneInOrder(r.findings, FindingKey, r.confirmed);
  }

  lemma OneClaimLists(r: Report, c: Coverage)
    requires |r.assessments| == |r.selected| == |r.artifacts| == |c.denominator| == 1 && r.coverage == c
    requires |c.visited.ids| == |c.completed.ids| == |c.evidenceSupported.ids| == |c.verified.ids| == |c.freshVerified.ids| == |c.accepted.ids| == 1
    ensures ListsCanonical(r)
  {
    OneIsCanonical(AssessedClaims(r.assessments));
    OneIsCanonical(r.selected);
    OneIsCanonical(r.artifacts);
    OneIsCanonical(c.denominator);
    OneIsCanonical(c.visited.ids);
    OneIsCanonical(c.completed.ids);
    OneIsCanonical(c.evidenceSupported.ids);
    OneIsCanonical(c.verified.ids);
    OneIsCanonical(c.freshVerified.ids);
    OneIsCanonical(c.accepted.ids);
  }

  lemma OneClaimTraces(b: Book, context: Context, found: int, decided: int, confirmed: int, h: Horizon)
    requires b == OneClaimBook(OneClaim(context, found, decided, confirmed))
    ensures Current(5, h) ==> BindingsOf(b, "c", h) == ReproducingOf(b, "c", h) == {"b"} && VerificationsOf(b, "c", h) == PassedOf(b, "c", h) == {"w"}
    ensures Current(5, h) ==> EvidenceOf(b, "c", h) == ReproducedOf(b, "c", h) == {"v"}
    ensures !Current(5, h) ==> PassedOf(b, "c", h) == {}
  {
    if Current(5, h) {
      assert Current(4, h);
      assert BindingsOf(b, "c", h) == {"b"};
      assert ReproducingOf(b, "c", h) == {"b"};
      assert "b" in BindingsOf(b, "c", h) && "b" in ReproducingOf(b, "c", h);
      assert EvidenceOf(b, "c", h) == {"v"};
      assert ReproducedOf(b, "c", h) == {"v"};
      assert VerificationsOf(b, "c", h) == {"w"};
    }
  }

  lemma OneDecision(b: Book, context: Context, d: Decision)
    requires d == Decision(d.at, "d", "c", Accept, {"c", "v", "w", "b"}, "p", context) && "c" in b.claims && b.claims["c"].property == "p"
    requires 5 < d.at ==> ReproducingOf(b, "c", Before(d.at)) == {"b"} && ReproducedOf(b, "c", Before(d.at)) == {"v"}
    requires PassedOf(b, "c", Before(d.at)) == if 5 < d.at then {"w"} else {}
    ensures DecisionExact(b, context, d) <==> 5 < d.at
  {
  }

  lemma OneFinding(b: Book, f: Finding)
    requires f == Finding(f.at, "f", "c", Accepted, {"v"}, {"w"}, Some("d"), None)
    requires "c" in b.claims && "v" in b.evidence && "w" in b.verifications && Ruled(b, f, Accept)
    requires 5 < f.at ==> ReproducedOf(b, "c", Before(f.at)) == {"v"}
    requires PassedOf(b, "c", Before(f.at)) == if 5 < f.at then {"w"} else {}
    ensures FindingExact(b, f) <==> 5 < f.at
  {
  }

  lemma OneClaimDecided(b: Book, context: Context, found: int, decided: int, confirmed: int)
    requires b == OneClaimBook(OneClaim(context, found, decided, confirmed))
    ensures DecisionExact(b, context, b.decisions["d"]) <==> 5 < decided
  {
    OneClaimTraces(b, context, found, decided, confirmed, Before(decided));
    OneDecision(b, context, b.decisions["d"]);
  }

  lemma OneClaimFound(b: Book, context: Context, found: int, decided: int, confirmed: int)
    requires b == OneClaimBook(OneClaim(context, found, decided, confirmed))
    ensures FindingExact(b, b.findings["f"]) <==> 5 < found
  {
    OneClaimTraces(b, context, found, decided, confirmed, Before(found));
    OneFinding(b, b.findings["f"]);
  }

  lemma OneClaimClean(b: Book, context: Context, found: int, decided: int, confirmed: int)
    requires b == OneClaimBook(OneClaim(context, found, decided, confirmed))
    ensures ClaimClosed(b, b.claims["c"]) && BindingClosed(b, b.bindings["b"]) && VerificationClosed(b, b.verifications["w"])
    ensures Linked(b, b.findings["f"]) && AssessmentExact(b, b.assessments["c"])
  {
    OneClaimTraces(b, context, found, decided, confirmed, Ever);
    OneClaimAssessed(b, b.assessments["c"]);
  }

  lemma OneClaimExact(b: Book, context: Context, found: int, decided: int, confirmed: int)
    requires b == OneClaimBook(OneClaim(context, found, decided, confirmed))
    ensures BookExact(b, context) <==> 5 < found && 5 < decided
  {
    OneClaimDecided(b, context, found, decided, confirmed);
    OneClaimFound(b, context, found, decided, confirmed);
    OneClaimClean(b, context, found, decided, confirmed);
    OneClaimRows(b, context);
  }

  /** Its rows, one by one. */
  lemma OneClaimRows(b: Book, context: Context)
    requires b.claims.Keys == b.assessments.Keys == {"c"} && b.bindings.Keys == {"b"} && b.verifications.Keys == {"w"}
    requires b.decisions.Keys == {"d"} && b.findings.Keys == {"f"}
    ensures BookExact(b, context) <==>
            && ClaimClosed(b, b.claims["c"]) && BindingClosed(b, b.bindings["b"]) && VerificationClosed(b, b.verifications["w"])
            && DecisionExact(b, context, b.decisions["d"]) && FindingExact(b, b.findings["f"]) && Linked(b, b.findings["f"])
            && AssessmentExact(b, b.assessments["c"])
  {
    assert "c" in b.claims && "b" in b.bindings && "w" in b.verifications && "d" in b.decisions && "f" in b.findings && "c" in b.assessments;
  }

  lemma OneClaimAssessed(b: Book, a: Assessment)
    requires b.findings.Keys == {"f"} && b.decisions.Keys == {"d"} && b.findings["f"].id == "f"
    requires b.findings["f"].claim == "c" == b.decisions["d"].claim && b.decisions["d"].ruling == Accept
    requires b.findings["f"].status == Accepted && b.findings["f"].decision == Some("d")
    requires b.findings["f"].evidence == EvidenceOf(b, "c", Ever) == ReproducedOf(b, "c", Ever)
    requires b.findings["f"].verifications == VerificationsOf(b, "c", Ever) == PassedOf(b, "c", Ever) == {"w"}
    requires BindingsOf(b, "c", Ever) == {"b"} && EvidenceOf(b, "c", Ever) == {"v"}
    requires a == Assessment("c", {"b"}, {"v"}, {"w"}, {"d"}, {"f"}, Some("d"), Some("f"), false, AcceptedClaim, AcceptedReview)
    ensures AssessmentExact(b, a)
  {
    assert (set x | x in b.decisions && b.decisions[x].claim == "c") == {"d"};
    assert (set x | x in b.findings && b.findings[x].claim == "c") == {"f"};
  }

  lemma OneVisited(b: Book)
    requires b.executions.Keys == {"x"} && b.executions["x"].obligations == {"o"} && b.executions["x"].structured
    ensures VisitedExpected(b, {"o"}) == StructuredObligations(b) == {"o"}
  {
    assert "x" in b.executions;
    assert VisitedExpected(b, {"o"}) == {"o"};
    assert StructuredObligations(b) == {"o"};
  }

  lemma OneSupported(b: Book)
    requires b.claims.Keys == {"c"} && b.claims["c"].obligation == "o" && ReproducedOf(b, "c", Ever) != {} && PassedOf(b, "c", Ever) != {}
    ensures SupportedExpected(b) == VerifiedExpected(b) == {"o"}
  {
    assert "c" in b.claims;
    assert SupportedExpected(b) == {"o"};
    assert VerifiedExpected(b) == {"o"};
  }

  lemma OneAccepted(b: Book)
    requires b.claims.Keys == b.assessments.Keys == {"c"} && b.claims["c"].obligation == "o" && StandsAccepted(b, b.assessments["c"])
    ensures AcceptedExpected(b) == {"o"}
  {
    assert "c" in b.claims && "c" in b.assessments;
  }

  lemma OneCoverage(b: Book, universe: string, selected: seq<string>, c: Coverage)
    requires VisitedExpected(b, {"o"}) == StructuredObligations(b) == SupportedExpected(b) == VerifiedExpected(b) == AcceptedExpected(b) == {"o"}
    requires selected == c.denominator == ["o"] && c == Coverage(universe, c.denominator, 1, c.visited, c.visited, c.visited, c.visited, c.visited, c.visited)
    requires c.visited == Stage(["o"], 1)
    ensures CoverageExact(b, universe, (set o | o in selected), c) && Ids(c.accepted) <= Ids(c.verified)
  {
    OneStage(c.visited);
    assert "o" in selected;
    assert (set o | o in selected) == {"o"};
  }

  lemma OneClaimClosed(r: Report, b: Book)
    requires b.executions.Keys == {"x"} && b.executions["x"].parsed == {"c"} && b.claims.Keys == b.assessments.Keys == {"c"}
    requires r.registrations == [Registration(1, "g")] && r.artifacts == ["g"] && Referenced(b) == {"g"}
    ensures TracesClosed(r, b)
  {
    assert (set e, c | e in b.executions && c in b.executions[e].parsed :: c) == {"c"} by { assert "x" in b.executions; }
    assert RegistrationIds(r) == {"g"} by { assert r.registrations[0] in r.registrations; }
    assert (set x | x in r.artifacts) == {"g"} by { assert "g" in r.artifacts; }
  }

  lemma OneClaimReferences(b: Book)
    requires b.executions.Keys == {"x"} && b.evidence.Keys == {"v"} && b.verifications.Keys == {"w"}
    requires b.executions["x"].raw == b.evidence["v"].input == b.evidence["v"].output == "g"
    requires b.verifications["w"].input == b.verifications["w"].output == "g"
    ensures Referenced(b) == {"g"}
  {
    assert "x" in b.executions;
  }

  lemma OneStage(s: Stage)
    requires s.ids == ["o"]
    ensures Ids(s) == {"o"} && |Ids(s)| == 1
  {
    assert "o" in s.ids;
    assert Ids(s) == {"o"};
  }

  lemma OneClaimCovered(r: Report, b: Book, context: Context, found: int, decided: int, confirmed: int)
    requires r == OneClaim(context, found, decided, confirmed) && b == OneClaimBook(r)
    ensures CoverageExact(b, context.universe, (set o | o in r.selected), r.coverage) && Ids(r.coverage.accepted) <= Ids(r.coverage.verified)
  {
    OneClaimTraces(b, context, found, decided, confirmed, Ever);
    OneVisited(b);
    OneSupported(b);
    OneAccepted(b);
    OneCoverage(b, context.universe, r.selected, r.coverage);
  }

  lemma OneClaimJudged(r: Report, b: Book)
    requires BookOf(r) == b && TracesClosed(r, b) && Ids(r.coverage.accepted) <= Ids(r.coverage.verified)
    requires CoverageExact(b, r.context.universe, (set o | o in r.selected), r.coverage)
    ensures Accepts(r) <==> RowsOrdered(r) && BookExact(b, r.context)
  {
  }

  /** The report is accepted exactly when both times come after the verification, in either order. */
  lemma OneClaimAccepted(context: Context, found: int, decided: int, confirmed: int)
    requires confirmed >= 5
    ensures Accepts(OneClaim(context, found, decided, confirmed)) <==> 5 < found <= confirmed && 5 < decided <= confirmed
  {
    var r := OneClaim(context, found, decided, confirmed);
    var b := OneClaimBook(r);
    OneClaimIndexed(r, context, found, decided, confirmed);
    OneClaimCovered(r, b, context, found, decided, confirmed);
    OneClaimReferences(b);
    OneClaimClosed(r, b);
    OneClaimJudged(r, b);
    OneClaimEvents(r);
    OneClaimLists(r, r.coverage);
    OneClaimExact(b, context, found, decided, confirmed);
  }

  /** A report that stands accepted with an accepted obligation whose finding is older than its decision. */
  lemma FindingBeforeItsDecision(context: Context)
    ensures var r := OneClaim(context, 6, 7, 7);
            Accepts(r) && r.findings[0].decision == Some(r.decisions[0].id) && r.findings[0].at < r.decisions[0].at &&
            r.coverage.accepted.ids == ["o"] && HasAuthority(BookOf(r), "o")
  {
    var r := OneClaim(context, 6, 7, 7);
    OneClaimAccepted(context, 6, 7, 7);
    AuthorityTheorem(r);
  }
}
