/** The order-statistic gates of Stage 0 (evaluator/stage0_driver.py `_median`, `reduce_gates`). */
module Stage0Gates {
  import Grouping
  import opened Ordering
  import opened Counting

  const EXPECTED_CLUSTERS := 300
  const BYTE_CEILING := 65_536

  datatype Exclusion = MaxFiles | SnapshotBytes | BlobBytes

  /** One cluster build record (`m20.stage0-cluster-build.v1`). */
  datatype Build = Build(
    id: string,
    applicable: seq<string>,
    retained: seq<string>,
    deferred: seq<string>,
    remainder: seq<string>,
    selected: string,
    obligationPath: string,
    obligationHash: string,
    admittedBytes: nat,
    wholeBytes: nat,
    modelEligible: bool,
    honest: bool,
    exclusion: set<Exclusion>)

  datatype Gates = Gates(
    prevalence: bool,
    subjectRetention: bool,
    boundedContext: bool,
    determinism: bool,
    enumerationHonesty: bool,
    fanOut: bool,
    deferredFraction: bool)
  {
    predicate AllPassed() {
      prevalence && subjectRetention && boundedContext && determinism && enumerationHonesty && fanOut && deferredFraction
    }
  }

  predicate IntLe(a: int, b: int) { a <= b }

  function Ordered(values: seq<int>): seq<int> { Sort(values, IntLe) }

  /** `_median`: numerator and denominator. */
  function Median(values: seq<int>): (r: (int, int))
    requires values != []
    ensures r.1 == 1 || r.1 == 2
  {
    SortSpec(values, IntLe);
    var ordered, middle := Ordered(values), |values| / 2;
    if |values| % 2 == 1 then (ordered[middle], 1) else (ordered[middle - 1] + ordered[middle], 2)
  }

  function CeilDiv(a: nat, b: nat): nat
    requires b > 0
  {
    (a + b - 1) / b
  }

  datatype Fan = Fan(size: nat, id: string)

  /** Tuples compare by size, then by cluster id. */
  predicate FanLe(a: Fan, b: Fan) { a.size < b.size || (a.size == b.size && TextLe(a.id, b.id)) }

  function Fans(builds: seq<Build>): (r: seq<Fan>)
    ensures |r| == |builds|
  {
    if builds == [] then [] else [Fan(|builds[0].applicable|, builds[0].id)] + Fans(builds[1..])
  }

  /** One value per applicable obligation of each build. */
  function Repeat(x: int, n: nat): (r: seq<int>)
    ensures |r| == n
  {
    if n == 0 then [] else [x] + Repeat(x, n - 1)
  }

  function Admitted(builds: seq<Build>): seq<int> {
    if builds == [] then [] else Repeat(builds[0].admittedBytes, |builds[0].applicable|) + Admitted(builds[1..])
  }

  function Whole(builds: seq<Build>): (r: seq<int>)
    ensures |r| == |Admitted(builds)|
  {
    if builds == [] then [] else Repeat(builds[0].wholeBytes, |builds[0].applicable|) + Whole(builds[1..])
  }

  function IdsOf(ids: seq<string>): set<string> { set x | x in ids }

  function ApplicableIds(builds: seq<Build>): set<string> {
    if builds == [] then {} else IdsOf(builds[0].applicable) + ApplicableIds(builds[1..])
  }

  function RetainedIds(builds: seq<Build>): set<string> {
    if builds == [] then {} else IdsOf(builds[0].retained) + RetainedIds(builds[1..])
  }

  function DeferredIds(builds: seq<Build>): set<string> {
    if builds == [] then {} else IdsOf(builds[0].deferred) + DeferredIds(builds[1..])
  }

  predicate HasObligations(b: Build) { b.applicable != [] }

  /** `bounded`: twice the admitted median against the whole-file median, cross-multiplied,
      and the 90th percentile under the ceiling. */
  function Bounded(admitted: seq<int>, whole: seq<int>): bool
    requires |admitted| == |whole|
  {
    admitted != [] &&
    (SortSpec(admitted, IntLe);
     var (an, ad), (wn, wd) := Median(admitted), Median(whole);
     2 * an * wd <= wn * ad && Ordered(admitted)[CeilDiv(9 * |admitted|, 10) - 1] <= BYTE_CEILING)
  }

  /** `reduce_gates` over builds with distinct ids, as `_ordered_terminal_builds` returns them. */
  function ReduceGates(builds: seq<Build>, expected: nat): Gates
    requires |builds| == expected && expected > 0
  {
    OrderFans(builds);
    var fanout := Sort(Fans(builds), FanLe);
    var a, s, d := ApplicableIds(builds), RetainedIds(builds), DeferredIds(builds);
    Gates(
      if expected == EXPECTED_CLUSTERS then Count(builds, HasObligations) >= 45 && |a| >= 60
      else Count(builds, HasObligations) == expected,
      20 * |s| >= 19 * |a|,
      Bounded(Admitted(builds), Whole(builds)),
      true,
      forall b :: b in builds ==> b.honest,
      if expected == EXPECTED_CLUSTERS then fanout[284].size <= 50
      else fanout[CeilDiv(19 * expected, 20) - 1].size <= 50,
      20 * |d| <= |a|)
  }

  lemma OrderFans(builds: seq<Build>)
    ensures TotalPreorder(FanLe)
    ensures |Sort(Fans(builds), FanLe)| == |builds|
    ensures Sorted(Sort(Fans(builds), FanLe), FanLe) && multiset(Sort(Fans(builds), FanLe)) == multiset(Fans(builds))
  {
    TextLeIsTotalPreorder();
    SortSpec(Fans(builds), FanLe);
  }

  // ---- Order statistics are counts ------------------------------------------------------------

  function AtMost(t: int): int -> bool { (x: int) => x <= t }

  function Below(t: int): int -> bool { (x: int) => x < t }

  /** The k-th smallest value is at most t exactly when at least k + 1 values are. */
  lemma KthSmallestIsCount(values: seq<int>, k: nat, t: int)
    requires k < |values|
    ensures |Ordered(values)| == |values|
    ensures Ordered(values)[k] <= t <==> Count(values, AtMost(t)) >= k + 1
  {
    SortSpec(values, IntLe);
    CountIgnoresOrder(Ordered(values), values, AtMost(t));
    CountIsPosition(Ordered(values), AtMost(t), k);
  }

  /** x is the k-th smallest: it occurs, at most k values are below it, and more than k are at most it. */
  predicate IsKth(values: seq<int>, k: nat, x: int) {
    x in values && Count(values, Below(x)) <= k < Count(values, AtMost(x))
  }

  lemma OrderedIsKth(values: seq<int>, k: nat)
    requires k < |values|
    ensures |Ordered(values)| == |values|
    ensures forall x :: IsKth(values, k, x) <==> x == Ordered(values)[k]
  {
    SortSpec(values, IntLe);
    SortMembers(values, IntLe);
    forall x ensures IsKth(values, k, x) <==> x == Ordered(values)[k] {
      KthSmallestIsCount(values, k, x);
      KthSmallestIsCount(values, k, x - 1);
      BelowIsAtMost(values, x);
    }
  }

  lemma {:induction false} BelowIsAtMost(values: seq<int>, x: int)
    ensures Count(values, Below(x)) == Count(values, AtMost(x - 1))
  {
    if values != [] { BelowIsAtMost(values[1..], x); }
  }

  /** The median by counting: the middle value, or the mean of the two middle values. */
  predicate IsMedian(values: seq<int>, m: real)
    requires values != []
  {
    var n := |values|;
    if n % 2 == 1 then exists x :: x in values && IsKth(values, n / 2, x) && m == x as real
    else exists x, y :: x in values && y in values && IsKth(values, n / 2 - 1, x) && IsKth(values, n / 2, y) && m == (x + y) as real / 2.0
  }

  lemma OddMedian(values: seq<int>, m: real)
    requires |values| % 2 == 1
    ensures IsMedian(values, m) <==> m == Median(values).0 as real
  {
    var n := |values|;
    OrderedIsKth(values, n / 2);
    assert IsKth(values, n / 2, Ordered(values)[n / 2]);
  }

  lemma EvenMedian(values: seq<int>, m: real)
    requires values != [] && |values| % 2 == 0
    ensures IsMedian(values, m) <==> m == Median(values).0 as real / 2.0
  {
    var n := |values|;
    OrderedIsKth(values, n / 2);
    OrderedIsKth(values, n / 2 - 1);
    var x, y := Ordered(values)[n / 2 - 1], Ordered(values)[n / 2];
    assert Median(values).0 == x + y;
    assert IsKth(values, n / 2 - 1, x) && IsKth(values, n / 2, y);
  }

  lemma MedianByCounting(values: seq<int>, m: real)
    requires values != []
    ensures IsMedian(values, m) <==> m == Median(values).0 as real / Median(values).1 as real
  {
    if |values| % 2 == 1 { OddMedian(values, m); } else { EvenMedian(values, m); }
  }

  lemma CrossMultiplied(an: int, ad: int, wn: int, wd: int)
    requires (ad == 1 || ad == 2) && (wd == 1 || wd == 2)
    ensures 2 * an * wd <= wn * ad <==> 2.0 * (an as real / ad as real) <= wn as real / wd as real
  {}

  // ---- Main results ---------------------------------------------------------------------------

  lemma MediansCompare(admitted: seq<int>, whole: seq<int>, am: real, wm: real)
    requires admitted != [] && whole != [] && IsMedian(admitted, am) && IsMedian(whole, wm)
    ensures 2 * Median(admitted).0 * Median(whole).1 <= Median(whole).0 * Median(admitted).1 <==> 2.0 * am <= wm
  {
    MedianByCounting(admitted, am);
    MedianByCounting(whole, wm);
    CrossMultiplied(Median(admitted).0, Median(admitted).1, Median(whole).0, Median(whole).1);
  }

  lemma PercentileIsCount(values: seq<int>, t: int, k: nat)
    requires values != [] && k == CeilDiv(9 * |values|, 10) - 1
    ensures k < |values| == |Ordered(values)| && (Ordered(values)[k] <= t <==> 10 * Count(values, AtMost(t)) >= 9 * |values|)
  {
    KthSmallestIsCount(values, k, t);
    CeilTenths(|values|, Count(values, AtMost(t)));
  }

  /** The bounded-context gate holds exactly when twice the median of the admitted bytes is at
      most the median of the whole-file bytes, over the rationals, and at least nine tenths of
      the values are within the ceiling. */
  lemma BoundedMeansMedianAndPercentile(admitted: seq<int>, whole: seq<int>, am: real, wm: real)
    requires |admitted| == |whole| && admitted != []
    requires IsMedian(admitted, am) && IsMedian(whole, wm)
    ensures Bounded(admitted, whole) <==>
            2.0 * am <= wm && 10 * Count(admitted, AtMost(BYTE_CEILING)) >= 9 * |admitted|
  {
    MediansCompare(admitted, whole, am, wm);
    PercentileIsCount(admitted, BYTE_CEILING, CeilDiv(9 * |admitted|, 10) - 1);
  }

  lemma CeilTenths(n: nat, c: nat)
    ensures c >= CeilDiv(9 * n, 10) <==> 10 * c >= 9 * n
  {}

  lemma CeilTwentieths(n: nat, c: nat)
    ensures c >= CeilDiv(19 * n, 20) <==> 20 * c >= 19 * n
  {}

  predicate NarrowFan(f: Fan) { f.size <= 50 }
  predicate NarrowBuild(b: Build) { |b.applicable| <= 50 }

  lemma {:induction false} FansCount(builds: seq<Build>)
    ensures Count(Fans(builds), NarrowFan) == Count(builds, NarrowBuild)
  {
    if builds != [] {
      FansCount(builds[1..]);
      assert Fans(builds)[1..] == Fans(builds[1..]);
    }
  }

  lemma KthFanIsCount(builds: seq<Build>, k: nat)
    requires k < |builds|
    ensures |Sort(Fans(builds), FanLe)| == |builds|
    ensures Sort(Fans(builds), FanLe)[k].size <= 50 <==> Count(builds, NarrowBuild) >= k + 1
  {
    OrderFans(builds);
    var fanout := Sort(Fans(builds), FanLe);
    FansCount(builds);
    CountIgnoresOrder(fanout, Fans(builds), NarrowFan);
    assert forall i, j :: 0 <= i < j < |fanout| ==> FanLe(fanout[i], fanout[j]);
    CountIsPosition(fanout, NarrowFan, k);
  }

  lemma FanGate(builds: seq<Build>, n: nat, k: nat)
    requires |builds| == n > 0 && k == if n == EXPECTED_CLUSTERS then 284 else CeilDiv(19 * n, 20) - 1
    ensures k < n && |Sort(Fans(builds), FanLe)| == n
    ensures ReduceGates(builds, n).fanOut <==> Sort(Fans(builds), FanLe)[k].size <= 50
  {
    OrderFans(builds);
  }

  /** Over any 300 builds the fan-out gate holds exactly when at least 285 of them have at most
      50 applicable obligations. */
  lemma FanOutIsCount(builds: seq<Build>)
    requires |builds| == EXPECTED_CLUSTERS
    ensures ReduceGates(builds, EXPECTED_CLUSTERS).fanOut <==> Count(builds, NarrowBuild) >= 285
  {
    FanGate(builds, EXPECTED_CLUSTERS, 284);
    KthFanIsCount(builds, 284);
  }

  /** For another corpus size the same gate asks for nineteen twentieths of the builds. */
  lemma FanOutIsFraction(builds: seq<Build>)
    requires builds != [] && |builds| != EXPECTED_CLUSTERS
    ensures ReduceGates(builds, |builds|).fanOut <==> 20 * Count(builds, NarrowBuild) >= 19 * |builds|
  {
    var n := |builds|;
    var k := CeilDiv(19 * n, 20) - 1;
    FanGate(builds, n, k);
    KthFanIsCount(builds, k);
    CeilTwentieths(n, Count(builds, NarrowBuild));
  }

  predicate SubsetIds(builds: seq<Build>) {
    forall b :: b in builds ==> IdsOf(b.retained) <= IdsOf(b.applicable) && IdsOf(b.deferred) <= IdsOf(b.applicable)
  }

  lemma {:induction false} GateSetsNest(builds: seq<Build>)
    requires SubsetIds(builds)
    ensures RetainedIds(builds) <= ApplicableIds(builds) && DeferredIds(builds) <= ApplicableIds(builds)
  {
    if builds != [] {
      assert builds[0] in builds;
      GateSetsNest(builds[1..]);
    }
  }

  /** On validated builds the two set gates are about what is missing: at most one applicable
      obligation in twenty lacks its subjects, and at most one in twenty is deferred. */
  lemma SetGatesAreLossRates(builds: seq<Build>)
    requires builds != [] && SubsetIds(builds)
    ensures var g, a := ReduceGates(builds, |builds|), ApplicableIds(builds);
            && (g.subjectRetention <==> 20 * |a - RetainedIds(builds)| <= |a|)
            && (g.deferredFraction <==> 20 * |a - DeferredIds(builds)| >= 19 * |a|)
  {
    GateSetsNest(builds);
    Grouping.SubsetSize(RetainedIds(builds), ApplicableIds(builds));
    Grouping.SubsetSize(DeferredIds(builds), ApplicableIds(builds));
  }
}
