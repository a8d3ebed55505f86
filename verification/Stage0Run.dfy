/** The concurrent Stage 0 driver (evaluator/stage0_driver.py `run_stage0`).

    The executor is modelled by its choices: which queued cluster starts next while a worker
    is free, and which running one completes next.  The choices are left open, so a contract
    that holds of the method holds of every interleaving and every legal width. */
module Stage0Run {
  import opened Wrappers
  import opened Ordering
  import opened Stage0Gates

  datatype Cluster = Cluster(repositoryId: string, repositoryRoot: string, baseOid: string, headOid: string)

  datatype Repository = Repository(id: string, root: string, commits: seq<(string, string)>)

  /** `commit_cluster_id`. */
  type Naming = Cluster -> string

  /** The pipeline of one cluster, for build 1 and build 2. */
  type Pipeline = (Cluster, nat) -> Build

  /** SHA-256 of the selection seed and a cluster id. */
  type Digest = string -> string

  datatype Stage0Error =
    | CorpusRepositoryDuplicate
    | ClusterIdentityInvalid
    | CommitClusterDuplicate
    | CommitClusterCountInvalid
    | JobsInvalid
    | BuildInvalid
    | BuildNondeterministic
    | TerminalClusterSetInvalid
    | GateFailed

  datatype Selection = Selection(eligible: seq<string>, hashOrdered: seq<string>, stage1: seq<string>, stage2a: seq<string>)

  datatype Outcome = Outcome(builds: seq<Build>, gates: Gates, selection: Selection)

  /** `worker_ceiling`. */
  function WorkerCeiling(cpuCount: Option<int>): (width: int)
    ensures 1 <= width <= 16
  {
    if cpuCount.None? || cpuCount.value <= 2 then 1 else Max(1, Min(16, cpuCount.value - 2))
  }

  // ---- Enumeration ----------------------------------------------------------------------------

  function ClustersOf(r: Repository, commits: seq<(string, string)>): seq<Cluster> {
    if commits == [] then [] else [Cluster(r.id, r.root, commits[0].0, commits[0].1)] + ClustersOf(r, commits[1..])
  }

  function AllClusters(repositories: seq<Repository>): seq<Cluster> {
    if repositories == [] then [] else ClustersOf(repositories[0], repositories[0].commits) + AllClusters(repositories[1..])
  }

  function Ids(names: Naming, clusters: seq<Cluster>): seq<string> {
    seq(|clusters|, i requires 0 <= i < |clusters| => names(clusters[i]))
  }

  function RepositoryIds(repositories: seq<Repository>): seq<string> {
    if repositories == [] then [] else [repositories[0].id] + RepositoryIds(repositories[1..])
  }

  predicate ById(names: Naming, a: Cluster, b: Cluster) { TextLe(names(a), names(b)) }

  /** `enumerate_clusters`. */
  function Enumerate(names: Naming, repositories: seq<Repository>, expected: nat): Result<seq<Cluster>, Stage0Error> {
    var clusters := AllClusters(repositories);
    if "" in RepositoryIds(repositories) || !Distinct(RepositoryIds(repositories)) then Failure(CorpusRepositoryDuplicate)
    else if exists c :: c in clusters && (c.baseOid == "" || c.headOid == "") then Failure(ClusterIdentityInvalid)
    else if !Distinct(Ids(names, clusters)) then Failure(CommitClusterDuplicate)
    else if |clusters| != expected then Failure(CommitClusterCountInvalid)
    else Success(Sort(clusters, (a, b) => ById(names, a, b)))
  }

  // ---- One cluster ------------------------------------------------------------------------------

  predicate CanonicalIds(ids: seq<string>) { "" !in ids && Sorted(ids, TextLe) && Distinct(ids) }

  /** Path(p) is relative and no part is "", "." or "..": an uninterpreted check of the launcher. */
  type PathCheck = string -> bool

  /** `_validate_build`, except the payload hash, which is recomputed from the same record. */
  predicate ValidBuild(b: Build, id: string, safePath: PathCheck) {
    && b.id == id
    && CanonicalIds(b.applicable) && CanonicalIds(b.retained) && CanonicalIds(b.deferred)
    && IdsOf(b.retained) <= IdsOf(b.applicable) && IdsOf(b.deferred) <= IdsOf(b.applicable)
    && IdsOf(b.remainder) == IdsOf(b.applicable) - IdsOf(b.retained)
    && (if b.modelEligible
        then b.selected in b.retained && b.obligationPath != "" && b.obligationHash != "" && safePath(b.obligationPath)
        else b.selected == "" && b.obligationPath == "" && b.obligationHash == "")
    && (b.exclusion != {} ==>
          && b.applicable == [] && b.retained == [] && b.deferred == [] && b.remainder == []
          && b.admittedBytes == 0 && b.wholeBytes == 0 && !b.modelEligible && b.honest)
  }

  /** `_run_cluster`: two validated builds that must agree byte for byte. */
  function RunCluster(names: Naming, pipeline: Pipeline, safePath: PathCheck, c: Cluster): Result<Build, Stage0Error> {
    var first, second := pipeline(c, 1), pipeline(c, 2);
    if !ValidBuild(first, names(c), safePath) || !ValidBuild(second, names(c), safePath) then Failure(BuildInvalid)
    else if first != second then Failure(BuildNondeterministic)
    else Success(first)
  }

  // ---- Reduction of the terminal builds -----------------------------------------------------------

  /** `_hash_order`: digest first, then the identity itself. */
  predicate HashLe(digest: Digest, a: string, b: string) {
    if digest(a) != digest(b) then TextLe(digest(a), digest(b)) else TextLe(a, b)
  }

  function EligibleIds(builds: seq<Build>): seq<string> {
    if builds == [] then [] else (if builds[0].modelEligible then [builds[0].id] else []) + EligibleIds(builds[1..])
  }

  function Take<T>(s: seq<T>, n: nat): (r: seq<T>)
    ensures r <= s
  {
    if n <= |s| then s[..n] else s
  }

  function Select(digest: Digest, builds: seq<Build>): Selection {
    var ordered := Sort(EligibleIds(builds), (a, b) => HashLe(digest, a, b));
    Selection(Sort(ordered, TextLe), ordered, Take(ordered, 10), Take(ordered, 40))
  }

  function Reduce(digest: Digest, builds: seq<Build>, expected: nat): Result<Outcome, Stage0Error>
    requires |builds| == expected && expected > 0
  {
    var gates := ReduceGates(builds, expected);
    if !gates.AllPassed() then Failure(GateFailed) else Success(Outcome(builds, gates, Select(digest, builds)))
  }

  /** The builds of all clusters, in enumeration order. */
  function Builds(names: Naming, pipeline: Pipeline, safePath: PathCheck, clusters: seq<Cluster>): (r: seq<Build>)
    requires forall c :: c in clusters ==> RunCluster(names, pipeline, safePath, c).Success?
    ensures |r| == |clusters|
    ensures forall i :: 0 <= i < |clusters| ==> r[i] == RunCluster(names, pipeline, safePath, clusters[i]).value
  {
    if clusters == [] then []
    else [RunCluster(names, pipeline, safePath, clusters[0]).value] + Builds(names, pipeline, safePath, clusters[1..])
  }

  predicate AllSucceed(names: Naming, pipeline: Pipeline, safePath: PathCheck, clusters: seq<Cluster>) {
    forall c :: c in clusters ==> RunCluster(names, pipeline, safePath, c).Success?
  }

  /** What a run that gets through every cluster must return. */
  function Expected(names: Naming, pipeline: Pipeline, safePath: PathCheck, digest: Digest, clusters: seq<Cluster>): Result<Outcome, Stage0Error>
    requires clusters != [] && AllSucceed(names, pipeline, safePath, clusters)
  {
    Reduce(digest, Builds(names, pipeline, safePath, clusters), |clusters|)
  }

  // ---- The executor ---------------------------------------------------------------------------------

  ghost predicate Collected(names: Naming, pipeline: Pipeline, safePath: PathCheck, clusters: seq<Cluster>, running: set<nat>, started: nat,
                            completed: map<string, Build>) {
    && started <= |clusters| && (forall i :: i in running ==> i < started)
    && (forall i :: 0 <= i < started && i !in running ==>
          && RunCluster(names, pipeline, safePath, clusters[i]).Success?
          && names(clusters[i]) in completed
          && completed[names(clusters[i])] == RunCluster(names, pipeline, safePath, clusters[i]).value)
    && (forall id :: id in completed ==> exists i :: 0 <= i < started && i !in running && names(clusters[i]) == id)
  }

  /** The worker pool: at most `width` clusters run at once, in submission order; any running
      one may complete next, and a failed one ends the collection. */
  method Collect(names: Naming, pipeline: Pipeline, safePath: PathCheck, clusters: seq<Cluster>, width: nat)
    returns (r: Result<map<string, Build>, Stage0Error>)
    requires Distinct(Ids(names, clusters)) && width >= 1
    ensures r.Success? <==> AllSucceed(names, pipeline, safePath, clusters)
    ensures r.Success? ==> r.value.Keys == IdsOf(Ids(names, clusters))
    ensures r.Success? ==> forall c :: c in clusters ==> names(c) in r.value && r.value[names(c)] == RunCluster(names, pipeline, safePath, c).value
    ensures r.Failure? ==> exists c :: c in clusters && RunCluster(names, pipeline, safePath, c) == Failure(r.error)
  {
    var started: nat, running: set<nat>, completed: map<string, Build> := 0, {}, map[];
    while started < |clusters| || running != {}
      invariant |running| <= width && Collected(names, pipeline, safePath, clusters, running, started, completed)
      decreases |clusters| - started, running
    {
      if {
        case started < |clusters| && |running| < width =>
          StartOne(names, pipeline, safePath, clusters, running, started, completed);
          running := running + {started};
          started := started + 1;
        case running != {} =>
          var i :| i in running;
          var c := clusters[i];
          assert c in clusters;
          var build := RunCluster(names, pipeline, safePath, c);
          if build.Failure? {
            return Failure(build.error);
          }
          FirstCompletion(names, pipeline, safePath, clusters, running, started, completed, i);
          if names(c) in completed {
            return Failure(CommitClusterDuplicate);
          }
          CollectOne(names, pipeline, safePath, clusters, running, started, completed, i);
          completed := completed[names(c) := build.value];
          running := running - {i};
      }
    }
    CollectedAll(names, pipeline, safePath, clusters, completed);
    return Success(completed);
  }

  lemma IdsApart(names: Naming, clusters: seq<Cluster>, i: nat, j: nat)
    requires Distinct(Ids(names, clusters)) && i < |clusters| && j < |clusters| && i != j
    ensures names(clusters[i]) != names(clusters[j])
  {
    assert Ids(names, clusters)[i] != Ids(names, clusters)[j];
  }

  /** No cluster completes twice, so the duplicate refusal of the collector is unreachable. */
  lemma FirstCompletion(names: Naming, pipeline: Pipeline, safePath: PathCheck, clusters: seq<Cluster>, running: set<nat>, started: nat,
                        completed: map<string, Build>, i: nat)
    requires Distinct(Ids(names, clusters)) && i in running
    requires Collected(names, pipeline, safePath, clusters, running, started, completed)
    ensures names(clusters[i]) !in completed
  {
    forall j | 0 <= j < started && j !in running ensures names(clusters[j]) != names(clusters[i]) {
      IdsApart(names, clusters, i, j);
    }
  }

  lemma StartOne(names: Naming, pipeline: Pipeline, safePath: PathCheck, clusters: seq<Cluster>, running: set<nat>, started: nat,
                 completed: map<string, Build>)
    requires started < |clusters| && Collected(names, pipeline, safePath, clusters, running, started, completed)
    ensures Collected(names, pipeline, safePath, clusters, running + {started}, started + 1, completed) && |running + {started}| == |running| + 1
  {
    assert started !in running;
  }

  lemma CollectOne(names: Naming, pipeline: Pipeline, safePath: PathCheck, clusters: seq<Cluster>, running: set<nat>, started: nat,
                   completed: map<string, Build>, i: nat)
    requires Distinct(Ids(names, clusters)) && i in running
    requires Collected(names, pipeline, safePath, clusters, running, started, completed)
    requires RunCluster(names, pipeline, safePath, clusters[i]).Success?
    ensures Collected(names, pipeline, safePath, clusters, running - {i}, started,
                      completed[names(clusters[i]) := RunCluster(names, pipeline, safePath, clusters[i]).value])
  {
    var left, next := running - {i}, completed[names(clusters[i]) := RunCluster(names, pipeline, safePath, clusters[i]).value];
    forall j | 0 <= j < started && j !in left
      ensures RunCluster(names, pipeline, safePath, clusters[j]).Success? && names(clusters[j]) in next
      ensures next[names(clusters[j])] == RunCluster(names, pipeline, safePath, clusters[j]).value
    {
      if j != i { IdsApart(names, clusters, i, j); }
    }
    forall id | id in next ensures exists j :: 0 <= j < started && j !in left && names(clusters[j]) == id {
      if id in completed {
        var j :| 0 <= j < started && j !in running && names(clusters[j]) == id;
        assert j !in left;
      } else {
        assert i !in left && names(clusters[i]) == id;
      }
    }
  }

  lemma IdsMembers(names: Naming, clusters: seq<Cluster>, id: string)
    ensures id in Ids(names, clusters) <==> exists i :: 0 <= i < |clusters| && names(clusters[i]) == id
  {
    if i :| 0 <= i < |clusters| && names(clusters[i]) == id {
      assert Ids(names, clusters)[i] == id;
    }
  }

  lemma CollectedAll(names: Naming, pipeline: Pipeline, safePath: PathCheck, clusters: seq<Cluster>, completed: map<string, Build>)
    requires Collected(names, pipeline, safePath, clusters, {}, |clusters|, completed)
    ensures AllSucceed(names, pipeline, safePath, clusters)
    ensures completed.Keys == IdsOf(Ids(names, clusters))
    ensures forall c :: c in clusters ==> completed[names(c)] == RunCluster(names, pipeline, safePath, c).value
  {
    forall c | c in clusters
      ensures RunCluster(names, pipeline, safePath, c).Success? && names(c) in completed
      ensures completed[names(c)] == RunCluster(names, pipeline, safePath, c).value
    {
      var i :| 0 <= i < |clusters| && clusters[i] == c;
    }
    forall id ensures id in completed <==> id in Ids(names, clusters) {
      IdsMembers(names, clusters, id);
    }
  }

  /** `_ordered_terminal_builds`: the collected builds in the order of their cluster ids. */
  function LookUp(completed: map<string, Build>, ids: seq<string>): (r: Result<seq<Build>, Stage0Error>)
    ensures r.Success? <==> forall id :: id in ids ==> id in completed
    ensures r.Success? ==> |r.value| == |ids| && forall i :: 0 <= i < |ids| ==> r.value[i] == completed[ids[i]]
  {
    if ids == [] then Success([])
    else if ids[0] !in completed then
      assert ids[0] in ids;
      Failure(TerminalClusterSetInvalid)
    else
      match LookUp(completed, ids[1..])
      case Failure(e) => Failure(e)
      case Success(rest) => Success([completed[ids[0]]] + rest)
  }

  /** `run_stage0`, from the enumeration to the selection. */
  method RunStage0(names: Naming, repositories: seq<Repository>, pipeline: Pipeline, safePath: PathCheck, digest: Digest,
                   expected: nat, jobs: Option<int>, cpuCount: Option<int>)
    returns (r: Result<Outcome, Stage0Error>)
    requires expected > 0
    ensures var e := Enumerate(names, repositories, expected);
            if e.Failure? then r == Failure(e.error)
            else if jobs.Some? && !(1 <= jobs.value <= WorkerCeiling(cpuCount)) then r == Failure(JobsInvalid)
            else if AllSucceed(names, pipeline, safePath, e.value) then
              e.value != [] && r == Expected(names, pipeline, safePath, digest, e.value)
            else r.Failure? && exists c :: c in e.value && RunCluster(names, pipeline, safePath, c) == Failure(r.error)
    ensures r.Success? ==> SelectionNested(digest, r.value.builds, r.value.selection)
  {
    var enumerated := Enumerate(names, repositories, expected);
    if enumerated.Failure? { return Failure(enumerated.error); }
    var clusters := enumerated.value;
    EnumeratedIsSorted(names, repositories, expected);
    var width := if jobs.None? then WorkerCeiling(cpuCount) else jobs.value;
    if width < 1 || width > WorkerCeiling(cpuCount) { return Failure(JobsInvalid); }
    var collected := Collect(names, pipeline, safePath, clusters, width);
    if collected.Failure? { return Failure(collected.error); }
    var builds := LookUp(collected.value, Sort(Ids(names, clusters), TextLe));
    TextLeIsTotalPreorder();
    SortFixesSorted(Ids(names, clusters), TextLe);
    if builds.Failure? { return Failure(TerminalClusterSetInvalid); }
    assert builds.value == Builds(names, pipeline, safePath, clusters);
    BuildsAreApart(names, pipeline, safePath, clusters);
    SelectionNests(digest, builds.value);
    return Reduce(digest, builds.value, expected);
  }

  lemma IdOrderIsTotal(names: Naming)
    ensures TotalPreorder((a: Cluster, b: Cluster) => ById(names, a, b))
  {
    forall a, b ensures ById(names, a, b) || ById(names, b, a) {
      TextLeTotal(names(a), names(b));
    }
    forall a, b, c | ById(names, a, b) && ById(names, b, c) ensures ById(names, a, c) {
      TextLeTransitive(names(a), names(b), names(c));
    }
  }

  lemma EnumeratedIsSorted(names: Naming, repositories: seq<Repository>, expected: nat)
    requires Enumerate(names, repositories, expected).Success?
    ensures var clusters := Enumerate(names, repositories, expected).value;
            && |clusters| == expected
            && Sorted(Ids(names, clusters), TextLe) && Distinct(Ids(names, clusters))
            && multiset(clusters) == multiset(AllClusters(repositories))
  {
    var all := AllClusters(repositories);
    var le := (a: Cluster, b: Cluster) => ById(names, a, b);
    IdOrderIsTotal(names);
    SortSpec(all, le);
    var clusters := Enumerate(names, repositories, expected).value;
    assert clusters == Sort(all, le);
    IdsMultiset(names, clusters, all);
    DistinctIgnoresOrder(Ids(names, clusters), Ids(names, all));
  }

  lemma {:induction false} IdsMultiset(names: Naming, a: seq<Cluster>, b: seq<Cluster>)
    requires multiset(a) == multiset(b)
    ensures multiset(Ids(names, a)) == multiset(Ids(names, b))
    decreases |a|
  {
    if a == [] {
      MultisetMembers(a, b);
    } else {
      var i := RemoveMatch(a, b);
      IdsMultiset(names, a[1..], b[..i] + b[i + 1..]);
      IdsRemove(names, a, 0);
      IdsRemove(names, b, i);
      assert a[..0] + a[1..] == a[1..];
    }
  }

  lemma IdsRemove(names: Naming, a: seq<Cluster>, i: nat)
    requires i < |a|
    ensures multiset(Ids(names, a)) == multiset(Ids(names, a[..i] + a[i + 1..])) + multiset{names(a[i])}
  {
    RemoveAt(Ids(names, a), i);
    var rest := a[..i] + a[i + 1..];
    var ids := Ids(names, a)[..i] + Ids(names, a)[i + 1..];
    forall k | 0 <= k < |rest| ensures Ids(names, rest)[k] == ids[k] {
      assert rest[k] == if k < i then a[k] else a[k + 1];
    }
    assert Ids(names, rest) == ids;
    assert Ids(names, a)[i] in Ids(names, a);
  }

  // ---- Main results -------------------------------------------------------------------------------------

  /** Two runs over the same corpus, with whatever widths and interleavings, that both finish
      return the same builds, gates and selection; and one fails on a cluster or a gate exactly
      when the other does. */
  method RunTwice(names: Naming, repositories: seq<Repository>, pipeline: Pipeline, safePath: PathCheck, digest: Digest, expected: nat,
                  jobs: Option<int>, cpuCount: Option<int>, jobs': Option<int>, cpuCount': Option<int>)
    returns (a: Result<Outcome, Stage0Error>, b: Result<Outcome, Stage0Error>)
    requires expected > 0
    requires jobs.Some? ==> 1 <= jobs.value <= WorkerCeiling(cpuCount)
    requires jobs'.Some? ==> 1 <= jobs'.value <= WorkerCeiling(cpuCount')
    ensures a.Success? <==> b.Success?
    ensures a.Success? ==> a == b
  {
    a := RunStage0(names, repositories, pipeline, safePath, digest, expected, jobs, cpuCount);
    b := RunStage0(names, repositories, pipeline, safePath, digest, expected, jobs', cpuCount');
  }

  lemma HashOrderIsTotal(digest: Digest)
    ensures TotalPreorder((a: string, b: string) => HashLe(digest, a, b))
    ensures forall a, b :: HashLe(digest, a, b) && HashLe(digest, b, a) ==> a == b
  {
    TextLeIsTotalPreorder();
  }

  /** The Stage 1 list is the front of the Stage 2A list; both take the eligible clusters, each
      once, in hash order. */
  ghost predicate SelectionNested(digest: Digest, builds: seq<Build>, s: Selection) {
    && s.stage1 <= s.stage2a <= s.hashOrdered
    && |s.stage1| == Min(10, |s.hashOrdered|) && |s.stage2a| == Min(40, |s.hashOrdered|)
    && Distinct(s.hashOrdered)
    && Sorted(s.hashOrdered, (a, b) => HashLe(digest, a, b))
    && Sorted(s.eligible, TextLe) && multiset(s.eligible) == multiset(s.hashOrdered)
    && (forall id :: id in s.hashOrdered <==> exists b :: b in builds && b.modelEligible && b.id == id)
  }

  /** Builds of differently named clusters carry different ids. */
  lemma BuildsAreApart(names: Naming, pipeline: Pipeline, safePath: PathCheck, clusters: seq<Cluster>)
    requires Distinct(Ids(names, clusters)) && AllSucceed(names, pipeline, safePath, clusters)
    ensures var builds := Builds(names, pipeline, safePath, clusters); forall i, j :: 0 <= i < j < |builds| ==> builds[i].id != builds[j].id
  {
    var builds := Builds(names, pipeline, safePath, clusters);
    forall i | 0 <= i < |builds| ensures builds[i].id == Ids(names, clusters)[i] {
      assert clusters[i] in clusters;
    }
  }

  lemma SelectionNests(digest: Digest, builds: seq<Build>)
    requires forall i, j :: 0 <= i < j < |builds| ==> builds[i].id != builds[j].id
    ensures SelectionNested(digest, builds, Select(digest, builds))
  {
    var ids, le := EligibleIds(builds), (a: string, b: string) => HashLe(digest, a, b);
    var s := Select(digest, builds);
    HashOrderIsTotal(digest);
    TextLeIsTotalPreorder();
    SortSpec(ids, le);
    assert s.hashOrdered == Sort(ids, le);
    SortSpec(s.hashOrdered, TextLe);
    MultisetMembers(s.hashOrdered, ids);
    EligibleAreDistinct(builds);
    EligibleMembers(builds);
    DistinctIgnoresOrder(s.hashOrdered, ids);
  }

  lemma {:induction false} EligibleMembers(builds: seq<Build>)
    ensures forall id :: id in EligibleIds(builds) <==> exists b :: b in builds && b.modelEligible && b.id == id
  {
    if builds != [] {
      var rest := builds[1..];
      EligibleMembers(rest);
      assert builds == [builds[0]] + rest;
      forall id ensures id in EligibleIds(builds) <==> exists b :: b in builds && b.modelEligible && b.id == id {
        if id in EligibleIds(rest) {
          var b :| b in rest && b.modelEligible && b.id == id;
          assert b in builds;
        }
        if b :| b in builds && b.modelEligible && b.id == id {
          if b != builds[0] { assert b in rest; }
        }
      }
    }
  }

  lemma {:induction false} EligibleAreDistinct(builds: seq<Build>)
    requires forall i, j :: 0 <= i < j < |builds| ==> builds[i].id != builds[j].id
    ensures Distinct(EligibleIds(builds))
  {
    if builds != [] {
      var rest := builds[1..];
      assert forall i :: 0 <= i < |rest| ==> rest[i] == builds[i + 1];
      EligibleAreDistinct(rest);
      EligibleMembers(rest);
      forall b | b in rest ensures b.id != builds[0].id {
        var j :| 0 <= j < |rest| && rest[j] == b;
        assert builds[j + 1] == b;
      }
      assert builds[0].id !in EligibleIds(rest);
    }
  }
}
