// Counting successes over a sweep: shards for browser workers, fold and reduce
// for the native service, and why both give the sequential counts.
module SweepCounts {
  import opened Options
  import opened Sequences

  const MAX_SWEEP_WORKERS := 8
  const MAX_SAFE_INTEGER := 0x1F_FFFF_FFFF_FFFF

  datatype Simulation = Simulation(id: string, seed: nat, paths: nat)

  /** How a scenario's path ends: every year funded, some year short, or an error. */
  datatype Projected = Funded | Short | Broken

  /** What a scenario's path with a given market seed comes to. */
  type Engine = (nat, nat) -> Projected

  datatype Counted = Counts(counts: seq<nat>) | OutOfRange | Canceled | Failed

  // ---- Specification -------------------------------------------------------

  function PathSeed(s: Simulation, path: nat): nat {
    (s.seed + path) % 0x1_0000_0000_0000_0000
  }

  /**
   * Paths of one scenario never share a market: seeds start at the scenario's
   * own, move by one from path to path, and repeat only after a whole lap of 64
   * bits.
   */
  lemma PathsHaveTheirOwnSeeds(s: Simulation, path: nat, other: nat)
    requires path < other < path + 0x1_0000_0000_0000_0000
    ensures PathSeed(s, path) != PathSeed(s, other)
    ensures PathSeed(s, path) < 0x1_0000_0000_0000_0000
    ensures PathSeed(s, path) == PathSeed(s, path + 0x1_0000_0000_0000_0000)
    ensures s.seed + path < 0x1_0000_0000_0000_0000 ==> PathSeed(s, path) == s.seed + path
  {
    var lap := 0x1_0000_0000_0000_0000;
    assert (s.seed + path + lap) % lap == (s.seed + path) % lap;
  }

  /** A path counts for a scenario that has it and funds it. */
  predicate Succeeds(sims: seq<Simulation>, engine: Engine, i: nat, path: nat)
    requires i < |sims|
  {
    path < sims[i].paths && engine(i, PathSeed(sims[i], path)) == Funded
  }

  /** A path that some scenario has cannot be projected. */
  predicate Breaks(sims: seq<Simulation>, engine: Engine, path: nat) {
    exists i | 0 <= i < |sims| :: BreaksFor(sims, engine, i, path)
  }

  predicate BreaksFor(sims: seq<Simulation>, engine: Engine, i: nat, path: nat)
    requires i < |sims|
  {
    path < sims[i].paths && engine(i, PathSeed(sims[i], path)) == Broken
  }

  /** Successes of scenario `i` among a list of paths. */
  function CountIn(sims: seq<Simulation>, engine: Engine, i: nat, paths: seq<nat>): nat
    requires i < |sims|
  {
    if |paths| == 0 then 0
    else (if Succeeds(sims, engine, i, paths[0]) then 1 else 0) + CountIn(sims, engine, i, paths[1..])
  }

  function Range(from: nat, to: nat): (r: seq<nat>)
    requires from <= to
    ensures |r| == to - from && forall k | 0 <= k < |r| :: r[k] == from + k
  {
    seq(to - from, k requires 0 <= k < to - from => from + k)
  }

  /** The sequential count: every path of the range, once. */
  function Sequential(sims: seq<Simulation>, engine: Engine, i: nat, from: nat, to: nat): nat
    requires i < |sims| && from <= to
  {
    CountIn(sims, engine, i, Range(from, to))
  }

  lemma {:induction false} CountJoins(sims: seq<Simulation>, engine: Engine, i: nat, a: seq<nat>, b: seq<nat>)
    requires i < |sims|
    ensures CountIn(sims, engine, i, a + b) == CountIn(sims, engine, i, a) + CountIn(sims, engine, i, b)
  {
    if |a| == 0 {
      assert a + b == b;
    } else {
      assert (a + b)[1..] == a[1..] + b;
      CountJoins(sims, engine, i, a[1..], b);
    }
  }

  lemma SequentialSplits(sims: seq<Simulation>, engine: Engine, i: nat, from: nat, mid: nat, to: nat)
    requires i < |sims| && from <= mid <= to
    ensures Sequential(sims, engine, i, from, to) == Sequential(sims, engine, i, from, mid) + Sequential(sims, engine, i, mid, to)
  {
    assert Range(from, to) == Range(from, mid) + Range(mid, to);
    CountJoins(sims, engine, i, Range(from, mid), Range(mid, to));
  }

  lemma SequentialOne(sims: seq<Simulation>, engine: Engine, i: nat, path: nat)
    requires i < |sims|
    ensures Sequential(sims, engine, i, path, path + 1) == if Succeeds(sims, engine, i, path) then 1 else 0
  {
    assert Range(path, path + 1) == [path];
    CountSingle(sims, engine, i, path);
  }

  lemma CountSingle(sims: seq<Simulation>, engine: Engine, i: nat, path: nat)
    requires i < |sims|
    ensures CountIn(sims, engine, i, [path]) == if Succeeds(sims, engine, i, path) then 1 else 0
  {
    var one: seq<nat> := [path];
    assert one[1..] == [];
  }

  /** How a list of paths is arranged does not change what it counts. */
  lemma {:induction false} CountIgnoresOrder(sims: seq<Simulation>, engine: Engine, i: nat, a: seq<nat>, b: seq<nat>)
    requires i < |sims| && multiset(a) == multiset(b)
    ensures CountIn(sims, engine, i, a) == CountIn(sims, engine, i, b)
  {
    if |a| == 0 {
      assert |multiset(b)| == 0;
    } else {
      var k := FirstIsSomewhere(a, b);
      CountIgnoresOrder(sims, engine, i, a[1..], b[..k] + b[k + 1..]);
      assert b == b[..k] + ([b[k]] + b[k + 1..]);
      CountJoins(sims, engine, i, b[..k], [b[k]] + b[k + 1..]);
      CountJoins(sims, engine, i, b[..k], b[k + 1..]);
      assert ([b[k]] + b[k + 1..])[1..] == b[k + 1..];
    }
  }

  // ---- Shards for browser workers --------------------------------------------

  datatype Shard = Shard(startPath: nat, endPath: nat)

  /** Nonempty ranges that follow each other from `from` to `to`, sizes within one. */
  predicate Tiles(shards: seq<Shard>, from: nat, to: nat, base: nat) {
    && (|shards| == 0 ==> from == to)
    && (|shards| > 0 ==> shards[0].startPath == from && shards[|shards| - 1].endPath == to)
    && (forall k | 0 <= k < |shards| - 1 :: shards[k].endPath == shards[k + 1].startPath)
    && (forall k | 0 <= k < |shards| ::
          shards[k].startPath < shards[k].endPath
          && base <= shards[k].endPath - shards[k].startPath <= base + 1)
  }

  /** What `navigator.hardwareConcurrency` gives: a number, or nothing finite. */
  function WorkerCount(paths: nat, hardwareConcurrency: Option<real>): nat
    requires 1 <= paths
  {
    var available := match hardwareConcurrency
      case Some(h) => if h.Floor - 1 < 1 then 1 else h.Floor - 1
      case None => 1;
    var capped := if available < MAX_SWEEP_WORKERS then available else MAX_SWEEP_WORKERS;
    if capped < paths then capped else paths
  }

  /** Split the paths as evenly as whole paths allow; refuse an unusable count. */
  method SweepPathShards(paths: int, hardwareConcurrency: Option<real>) returns (shards: Option<seq<Shard>>)
    ensures shards.None? <==> !(1 <= paths <= MAX_SAFE_INTEGER)
    ensures shards.Some? ==>
              var n := |shards.value|;
              n == WorkerCount(paths, hardwareConcurrency) >= 1 && Tiles(shards.value, 0, paths, paths / n)
  {
    if !(1 <= paths <= MAX_SAFE_INTEGER) {
      return None;
    }
    var workerCount := WorkerCount(paths, hardwareConcurrency);
    var basePathsPerWorker := paths / workerCount;
    var workersWithExtraPath := paths % workerCount;
    DivisionFits(paths, workerCount);
    var made: seq<Shard> := [];
    var startPath := 0;
    for workerIndex := 0 to workerCount
      invariant |made| == workerIndex
      invariant startPath == ShardStart(workerIndex, basePathsPerWorker, workersWithExtraPath)
      invariant Tiles(made, 0, startPath, basePathsPerWorker)
    {
      var shardSize := basePathsPerWorker + (if workerIndex < workersWithExtraPath then 1 else 0);
      var shard := Shard(startPath, startPath + shardSize);
      OneMoreTile(made, 0, startPath, basePathsPerWorker, shard);
      made := made + [shard];
      startPath := shard.endPath;
    }
    StartIsEven(workerCount, basePathsPerWorker, workersWithExtraPath);
    shards := Some(made);
  }

  /** Where shard `k` starts when the first `extra` shards take one path more. */
  function ShardStart(k: nat, base: nat, extra: nat): nat {
    if k == 0 then 0 else ShardStart(k - 1, base, extra) + base + (if k - 1 < extra then 1 else 0)
  }

  lemma {:induction false} StartIsEven(k: nat, base: nat, extra: nat)
    ensures ShardStart(k, base, extra) == k * base + (if k < extra then k else extra)
  {
    if k > 0 {
      StartIsEven(k - 1, base, extra);
      assert k * base == (k - 1) * base + base;
    }
  }

  lemma OneMoreTile(shards: seq<Shard>, from: nat, to: nat, base: nat, shard: Shard)
    requires Tiles(shards, from, to, base) && shard.startPath == to
    requires shard.startPath < shard.endPath && base <= shard.endPath - shard.startPath <= base + 1
    ensures Tiles(shards + [shard], from, shard.endPath, base)
  {
  }

  lemma TilesButLast(shards: seq<Shard>, from: nat, to: nat, base: nat)
    requires Tiles(shards, from, to, base) && |shards| > 0
    ensures Tiles(shards[..|shards| - 1], from, shards[|shards| - 1].startPath, base)
  {
    var n := |shards| - 1;
    assert n > 0 ==> shards[..n][n - 1] == shards[n - 1] && shards[n - 1].endPath == shards[n].startPath;
  }

  lemma DivisionFits(paths: nat, n: nat)
    requires 1 <= n <= paths
    ensures paths == n * (paths / n) + paths % n && 1 <= paths / n && paths % n < n
  {
  }

  /** Sums of the shards' counts, scenario by scenario. */
  function SumAt(shardCounts: seq<seq<nat>>, i: nat): nat
    requires forall k | 0 <= k < |shardCounts| :: i < |shardCounts[k]|
  {
    if |shardCounts| == 0 then 0 else SumAt(shardCounts[..|shardCounts| - 1], i) + shardCounts[|shardCounts| - 1][i]
  }

  /** Adding up shards that tile a range counts the range. */
  lemma {:induction false} ShardsCountTheRange(sims: seq<Simulation>, engine: Engine, shards: seq<Shard>,
                                               shardCounts: seq<seq<nat>>, i: nat, from: nat, to: nat, base: nat)
    requires i < |sims| && from <= to && Tiles(shards, from, to, base) && |shardCounts| == |shards|
    requires forall k | 0 <= k < |shards| :: shards[k].startPath <= shards[k].endPath && |shardCounts[k]| == |sims|
               && shardCounts[k][i] == Sequential(sims, engine, i, shards[k].startPath, shards[k].endPath)
    ensures SumAt(shardCounts, i) == Sequential(sims, engine, i, from, to)
    decreases |shards|
  {
    hide Sequential;
    if |shards| == 0 {
      SequentialNone(sims, engine, i, from);
    } else {
      var n := |shards| - 1;
      var last := shards[n];
      StartsNoEarlier(shards, from, to, base, n);
      TilesButLast(shards, from, to, base);
      assert last.endPath == to;
      hide Tiles;
      assert forall k | 0 <= k < n :: shards[..n][k] == shards[k] && shardCounts[..n][k] == shardCounts[k];
      ShardsCountTheRange(sims, engine, shards[..n], shardCounts[..n], i, from, last.startPath, base);
      SequentialSplits(sims, engine, i, from, last.startPath, to);
    }
  }

  lemma SequentialNone(sims: seq<Simulation>, engine: Engine, i: nat, from: nat)
    requires i < |sims|
    ensures Sequential(sims, engine, i, from, from) == 0
  {
    assert Range(from, from) == [];
  }

  lemma {:induction false} StartsNoEarlier(shards: seq<Shard>, from: nat, to: nat, base: nat, k: nat)
    requires Tiles(shards, from, to, base) && k < |shards|
    ensures from <= shards[k].startPath
    decreases k
  {
    if k > 0 {
      StartsNoEarlier(shards, from, to, base, k - 1);
      assert shards[k - 1].endPath == shards[k].startPath;
    }
  }

  /** One shard: every scenario over one absolute path range, unless one of its paths breaks. */
  method CountSweepShardSequential(sims: seq<Simulation>, engine: Engine, startPath: nat, endPath: nat) returns (r: Counted)
    ensures r.OutOfRange? <==> |sims| > 0 && (startPath >= endPath || exists i | 0 <= i < |sims| :: endPath > sims[i].paths)
    ensures r.Failed? <==> !r.OutOfRange? && exists p | startPath <= p < endPath :: Breaks(sims, engine, p)
    ensures r.Counts? ==> |r.counts| == |sims|
    ensures r.Counts? && startPath <= endPath ==>
              forall i | 0 <= i < |sims| :: r.counts[i] == Sequential(sims, engine, i, startPath, endPath)
    ensures !r.Canceled?
  {
    if |sims| == 0 {
      return Counts([]);
    }
    if startPath >= endPath || exists i | 0 <= i < |sims| :: endPath > sims[i].paths {
      return OutOfRange;
    }
    var counts := seq(|sims|, _ => 0);
    forall i | 0 <= i < |sims|
      ensures Sequential(sims, engine, i, startPath, startPath) == 0
    {
      assert Range(startPath, startPath) == [];
    }
    for path := startPath to endPath
      invariant |counts| == |sims|
      invariant forall p | startPath <= p < path :: !Breaks(sims, engine, p)
      invariant forall i | 0 <= i < |sims| :: counts[i] == Sequential(sims, engine, i, startPath, path)
    {
      hide Breaks;
      var counted := CountPath(sims, engine, counts, path);
      if counted.None? {
        return Failed;
      }
      counts := counted.value;
      forall i | 0 <= i < |sims|
        ensures counts[i] == Sequential(sims, engine, i, startPath, path + 1)
      {
        SequentialSplits(sims, engine, i, startPath, path, path + 1);
        SequentialOne(sims, engine, i, path);
      }
    }
    r := Counts(counts);
  }

  /** One path against every scenario that has it; the first projection that breaks ends it. */
  method CountPath(sims: seq<Simulation>, engine: Engine, counts: seq<nat>, path: nat) returns (counted: Option<seq<nat>>)
    requires |counts| == |sims|
    ensures counted.None? <==> Breaks(sims, engine, path)
    ensures counted.Some? ==> |counted.value| == |sims|
    ensures counted.Some? ==>
              forall i | 0 <= i < |sims| :: counted.value[i] == counts[i] + (if Succeeds(sims, engine, i, path) then 1 else 0)
  {
    var after := counts;
    for scenarioIndex := 0 to |sims|
      invariant |after| == |sims|
      invariant forall i | 0 <= i < scenarioIndex :: !BreaksFor(sims, engine, i, path)
      invariant forall i | 0 <= i < scenarioIndex ::
                  after[i] == counts[i] + (if Succeeds(sims, engine, i, path) then 1 else 0)
      invariant forall i | scenarioIndex <= i < |sims| :: after[i] == counts[i]
    {
      if path < sims[scenarioIndex].paths {
        var projected := engine(scenarioIndex, PathSeed(sims[scenarioIndex], path));
        if projected == Broken {
          assert BreaksFor(sims, engine, scenarioIndex, path);
          return None;
        }
        if projected == Funded {
          after := after[scenarioIndex := after[scenarioIndex] + 1];
        }
      }
    }
    counted := Some(after);
  }

  /**
   * A browser sweep: shards out to workers, and their counts added up. Whatever
   * the hardware, each scenario gets its sequential count over all the paths; the
   * sweep fails exactly when the path count is unusable or some path breaks.
   */
  method RunBrowserSweep(sims: seq<Simulation>, engine: Engine, paths: nat, hardwareConcurrency: Option<real>)
    returns (counts: Option<seq<nat>>)
    requires forall i | 0 <= i < |sims| :: sims[i].paths == paths
    ensures |sims| > 0 ==>
              (counts.None? <==> !(1 <= paths <= MAX_SAFE_INTEGER) || exists p | 0 <= p < paths :: Breaks(sims, engine, p))
    ensures counts.Some? ==>
              |counts.value| == |sims| && forall i | 0 <= i < |sims| :: counts.value[i] == Sequential(sims, engine, i, 0, paths)
  {
    hide Breaks;
    if |sims| == 0 {
      return Some([]);
    }
    var shards := SweepPathShards(paths, hardwareConcurrency);
    if shards.None? {
      return None;
    }
    var base := paths / |shards.value|;
    var shardCounts := CountShards(sims, engine, shards.value, paths, base);
    if shardCounts.None? {
      return None;
    }
    forall p | 0 <= p < paths
      ensures !Breaks(sims, engine, p)
    {
      var k := ShardOf(shards.value, 0, paths, base, p);
    }
    var total := MergeCounts(|sims|, shardCounts.value);
    forall i | 0 <= i < |sims|
      ensures total[i] == Sequential(sims, engine, i, 0, paths)
    {
      ShardsCountTheRange(sims, engine, shards.value, shardCounts.value, i, 0, paths, base);
    }
    counts := Some(total);
  }

  /** Every path of a tiled range is in some shard. */
  lemma {:induction false} ShardOf(shards: seq<Shard>, from: nat, to: nat, base: nat, p: nat) returns (k: nat)
    requires Tiles(shards, from, to, base) && from <= p < to
    ensures k < |shards| && shards[k].startPath <= p < shards[k].endPath
    decreases |shards|
  {
    var n := |shards| - 1;
    if p < shards[n].startPath {
      TilesButLast(shards, from, to, base);
      k := ShardOf(shards[..n], from, shards[n].startPath, base, p);
    } else {
      k := n;
    }
  }

  /** Each worker's shard, counted on its own; one that fails fails the sweep. */
  method CountShards(sims: seq<Simulation>, engine: Engine, shards: seq<Shard>, paths: nat, base: nat)
    returns (shardCounts: Option<seq<seq<nat>>>)
    requires |sims| > 0 && forall i | 0 <= i < |sims| :: sims[i].paths == paths
    requires Tiles(shards, 0, paths, base)
    ensures shardCounts.None? ==> exists p | 0 <= p < paths :: Breaks(sims, engine, p)
    ensures shardCounts.Some? ==>
              && |shardCounts.value| == |shards|
              && (forall k | 0 <= k < |shards| :: |shardCounts.value[k]| == |sims|
                    && forall i | 0 <= i < |sims| ::
                         shardCounts.value[k][i] == Sequential(sims, engine, i, shards[k].startPath, shards[k].endPath))
              && (forall k, p | 0 <= k < |shards| && shards[k].startPath <= p < shards[k].endPath :: !Breaks(sims, engine, p))
  {
    hide Breaks;
    var made := [];
    for worker := 0 to |shards|
      invariant |made| == worker
      invariant forall k | 0 <= k < worker :: |made[k]| == |sims|
                  && forall i | 0 <= i < |sims| ::
                       made[k][i] == Sequential(sims, engine, i, shards[k].startPath, shards[k].endPath)
      invariant forall k, p | 0 <= k < worker && shards[k].startPath <= p < shards[k].endPath :: !Breaks(sims, engine, p)
    {
      EndsInside(shards, 0, paths, base, worker);
      var counted := CountSweepShardSequential(sims, engine, shards[worker].startPath, shards[worker].endPath);
      if counted.Failed? {
        return None;
      }
      made := made + [counted.counts];
    }
    shardCounts := Some(made);
  }

  /** The workers' vectors added up, scenario by scenario. */
  method MergeCounts(scenarios: nat, shardCounts: seq<seq<nat>>) returns (total: seq<nat>)
    requires forall k | 0 <= k < |shardCounts| :: |shardCounts[k]| == scenarios
    ensures |total| == scenarios && forall i | 0 <= i < scenarios :: total[i] == SumAt(shardCounts, i)
  {
    total := seq(scenarios, _ => 0);
    for shard := 0 to |shardCounts|
      invariant |total| == scenarios
      invariant forall i | 0 <= i < scenarios :: total[i] == SumAt(shardCounts[..shard], i)
    {
      assert shardCounts[..shard + 1][..shard] == shardCounts[..shard];
      total := AddCounts(total, shardCounts[shard]);
    }
    assert shardCounts[..|shardCounts|] == shardCounts;
  }

  lemma {:induction false} EndsInside(shards: seq<Shard>, from: nat, to: nat, base: nat, k: nat)
    requires Tiles(shards, from, to, base) && k < |shards|
    ensures shards[k].endPath <= to
    decreases |shards| - k
  {
    if k < |shards| - 1 {
      EndsInside(shards, from, to, base, k + 1);
      assert shards[k].endPath == shards[k + 1].startPath;
    }
  }

  /** The reducer: two count vectors, added in place. */
  method AddCounts(left: seq<nat>, right: seq<nat>) returns (sum: seq<nat>)
    requires |left| == |right|
    ensures |sum| == |left| && forall i | 0 <= i < |left| :: sum[i] == left[i] + right[i]
  {
    sum := left;
    for i := 0 to |left|
      invariant |sum| == |left|
      invariant forall k | 0 <= k < i :: sum[k] == left[k] + right[k]
      invariant forall k | i <= k < |left| :: sum[k] == left[k]
    {
      sum := sum[i := sum[i] + right[i]];
    }
  }

  // ---- The native fold and reduce ----------------------------------------------

  /**
   * However the scheduler splits the work: each task folds some paths from a
   * fresh vector, and partial vectors are reduced in pairs, with the identity
   * anywhere.
   */
  datatype Work = Identity | Fold(paths: seq<nat>) | Reduce(left: Work, right: Work)

  function PathsOf(work: Work): seq<nat> {
    match work
    case Identity => []
    case Fold(paths) => paths
    case Reduce(left, right) => PathsOf(left) + PathsOf(right)
  }

  /** One of these paths is canceled or breaks. */
  ghost predicate Stopped(sims: seq<Simulation>, engine: Engine, canceled: nat -> bool, paths: seq<nat>) {
    exists p :: p in paths && (canceled(p) || Breaks(sims, engine, p))
  }

  /** A failure names a real one: a cancellation some path saw, or a path that breaks. */
  ghost predicate Explained(r: Counted, sims: seq<Simulation>, engine: Engine, canceled: nat -> bool, paths: seq<nat>) {
    && (r.Canceled? ==> exists p :: p in paths && canceled(p))
    && (r.Failed? ==> exists p :: p in paths && Breaks(sims, engine, p))
  }

  /** Run a tree of tasks; a cancellation or a broken path in any task fails the whole. */
  method RunWork(sims: seq<Simulation>, engine: Engine, canceled: nat -> bool, work: Work) returns (r: Counted)
    ensures !r.OutOfRange? && (r.Counts? <==> !Stopped(sims, engine, canceled, PathsOf(work)))
    ensures Explained(r, sims, engine, canceled, PathsOf(work))
    ensures r.Counts? ==>
              |r.counts| == |sims| && forall i | 0 <= i < |sims| :: r.counts[i] == CountIn(sims, engine, i, PathsOf(work))
  {
    hide Breaks;
    match work
    case Identity =>
      r := Counts(seq(|sims|, _ => 0));
    case Fold(paths) =>
      r := FoldPaths(sims, engine, canceled, paths);
    case Reduce(left, right) =>
      r := RunWork(sims, engine, canceled, left);
      if r.Counts? {
        var l := r.counts;
        r := RunWork(sims, engine, canceled, right);
        if r.Counts? {
          var sum := AddCounts(l, r.counts);
          forall i | 0 <= i < |sims|
            ensures sum[i] == CountIn(sims, engine, i, PathsOf(work))
          {
            CountJoins(sims, engine, i, PathsOf(left), PathsOf(right));
          }
          r := Counts(sum);
        }
      }
  }

  method FoldPaths(sims: seq<Simulation>, engine: Engine, canceled: nat -> bool, paths: seq<nat>) returns (r: Counted)
    ensures !r.OutOfRange? && (r.Counts? <==> !Stopped(sims, engine, canceled, paths))
    ensures Explained(r, sims, engine, canceled, paths)
    ensures r.Counts? ==>
              |r.counts| == |sims| && forall i | 0 <= i < |sims| :: r.counts[i] == CountIn(sims, engine, i, paths)
  {
    hide Breaks;
    var counts := seq(|sims|, _ => 0);
    for k := 0 to |paths|
      invariant |counts| == |sims|
      invariant forall j | 0 <= j < k :: !canceled(paths[j]) && !Breaks(sims, engine, paths[j])
      invariant forall i | 0 <= i < |sims| :: counts[i] == CountIn(sims, engine, i, paths[..k])
    {
      if canceled(paths[k]) {
        return Canceled;
      }
      var counted := CountPath(sims, engine, counts, paths[k]);
      if counted.None? {
        return Failed;
      }
      counts := counted.value;
      forall i | 0 <= i < |sims|
        ensures counts[i] == CountIn(sims, engine, i, paths[..k + 1])
      {
        assert paths[..k + 1] == paths[..k] + [paths[k]];
        CountJoins(sims, engine, i, paths[..k], [paths[k]]);
        CountSingle(sims, engine, i, paths[k]);
      }
    }
    assert paths[..|paths|] == paths;
    r := Counts(counts);
  }

  function MaxPaths(sims: seq<Simulation>): (m: nat)
    ensures forall i | 0 <= i < |sims| :: sims[i].paths <= m
  {
    if |sims| == 0 then 0
    else
      var rest := MaxPaths(sims[1..]);
      assert forall i | 1 <= i < |sims| :: sims[i] == sims[1..][i - 1];
      if sims[0].paths < rest then rest else sims[0].paths
  }

  /** A scenario's paths past its own count contribute nothing. */
  lemma {:induction false} PastTheCount(sims: seq<Simulation>, engine: Engine, i: nat, from: nat, to: nat)
    requires i < |sims| && sims[i].paths <= from <= to
    ensures Sequential(sims, engine, i, from, to) == 0
    decreases (to as int) - (from as int)
  {
    if from < to {
      SequentialSplits(sims, engine, i, from, from + 1, to);
      SequentialOne(sims, engine, i, from);
      PastTheCount(sims, engine, i, from + 1, to);
    } else {
      assert Range(from, to) == [];
    }
  }

  /**
   * Any tree of folds and reductions that covers the paths once, in any
   * arrangement, gives every scenario exactly its own sequential success count,
   * unless the sweep was canceled or a path breaks, and then it says which.
   */
  method RunNativeSweep(sims: seq<Simulation>, engine: Engine, canceled: nat -> bool, canceledAtEnd: bool, work: Work)
    returns (r: Counted)
    requires multiset(PathsOf(work)) == multiset(Range(0, MaxPaths(sims)))
    ensures r.Counts? <==> |sims| == 0 || !(canceledAtEnd || Stopped(sims, engine, canceled, Range(0, MaxPaths(sims))))
    ensures r.Canceled? ==> canceledAtEnd || exists p :: p in Range(0, MaxPaths(sims)) && canceled(p)
    ensures r.Failed? ==> exists p :: p in Range(0, MaxPaths(sims)) && Breaks(sims, engine, p)
    ensures !r.OutOfRange?
    ensures r.Counts? ==>
              |r.counts| == |sims| && forall i | 0 <= i < |sims| :: r.counts[i] == Sequential(sims, engine, i, 0, sims[i].paths)
  {
    hide Breaks;
    if |sims| == 0 {
      return Counts([]);
    }
    r := RunWork(sims, engine, canceled, work);
    var all := Range(0, MaxPaths(sims));
    forall p: nat
      ensures p in PathsOf(work) <==> p in all
    {
      assert p in PathsOf(work) <==> p in multiset(PathsOf(work));
      assert p in all <==> p in multiset(all);
    }
    forall i | 0 <= i < |sims|
      ensures CountIn(sims, engine, i, PathsOf(work)) == Sequential(sims, engine, i, 0, sims[i].paths)
    {
      CountIgnoresOrder(sims, engine, i, PathsOf(work), all);
      SequentialSplits(sims, engine, i, 0, sims[i].paths, MaxPaths(sims));
      PastTheCount(sims, engine, i, sims[i].paths, MaxPaths(sims));
    }
    if r.Counts? && canceledAtEnd {
      r := Canceled;
    }
  }
}
