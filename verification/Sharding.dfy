// Contiguous splitting of a batch: over ranks (_shard_list), over micro-batches,
// and the choice of micro-batch size that keeps ranks in lock-step
// (src/tuft/backends/fsdp_training_backend.py, fsdp_engine.py).
module Sharding {
  import opened Wrappers

  // ---------- Concatenation ----------

  function Flatten<T>(xss: seq<seq<T>>): seq<T> {
    if xss == [] then [] else Flatten(xss[..|xss| - 1]) + xss[|xss| - 1]
  }

  lemma {:induction false} FlattenAppend<T>(xss: seq<seq<T>>, yss: seq<seq<T>>)
    ensures Flatten(xss + yss) == Flatten(xss) + Flatten(yss)
  {
    if yss == [] {
      assert xss + yss == xss;
    } else {
      var init := yss[..|yss| - 1];
      FlattenAppend(xss, init);
      assert (xss + yss)[..|xss + yss| - 1] == xss + init;
    }
  }

  lemma FlattenOne<T>(xs: seq<T>)
    ensures Flatten([xs]) == xs
  {
    assert Flatten([xs]) == Flatten<T>([]) + xs;
  }

  // ---------- _shard_list ----------

  datatype ShardError = BadShardCount(n: int)

  function ShardSize(total: nat, n: nat, i: nat): nat
    requires n > 0
  {
    total / n + if i < total % n then 1 else 0
  }

  // Position at which shard i starts.
  function ShardStart(total: nat, n: nat, i: nat): nat
    requires n > 0
  {
    i * (total / n) + if i < total % n then i else total % n
  }

  lemma ShardStartStep(total: nat, n: nat, i: nat)
    requires n > 0
    ensures ShardStart(total, n, i + 1) == ShardStart(total, n, i) + ShardSize(total, n, i)
  {
  }

  lemma ShardStartBounds(total: nat, n: nat, i: nat)
    requires n > 0 && i <= n
    ensures ShardStart(total, n, i) <= total && ShardStart(total, n, n) == total && ShardStart(total, n, 0) == 0
  {
    var b, r := total / n, total % n;
    assert total == n * b + r;
    assert i * b <= n * b;
  }

  // An even split: shards in order make up the input and differ in size by at most one.
  ghost predicate EvenSplit<T>(xs: seq<T>, shards: seq<seq<T>>) {
    && Flatten(shards) == xs
    && forall i, j :: 0 <= i < |shards| && 0 <= j < |shards| ==> |shards[i]| <= |shards[j]| + 1
  }

  method ShardList<T>(xs: seq<T>, nShards: int) returns (r: Result<seq<seq<T>>, ShardError>)
    ensures nShards <= 0 ==> r == Err(BadShardCount(nShards))
    ensures nShards > 0 ==> r.Ok? && |r.value| == nShards && EvenSplit(xs, r.value)
    ensures nShards > 0 ==> forall i :: 0 <= i < nShards ==> |r.value[i]| == ShardSize(|xs|, nShards, i)
    ensures nShards > 0 && |xs| >= nShards ==> forall i :: 0 <= i < nShards ==> r.value[i] != []
  {
    if nShards <= 0 {
      return Err(BadShardCount(nShards));
    }
    var total := |xs|;
    var base, rem := total / nShards, total % nShards;
    var shards: seq<seq<T>> := [];
    var start := 0;
    ShardStartBounds(total, nShards, 0);
    for i := 0 to nShards
      invariant |shards| == i
      invariant start == ShardStart(total, nShards, i) <= total
      invariant Flatten(shards) == xs[..start]
      invariant forall j :: 0 <= j < i ==> |shards[j]| == ShardSize(total, nShards, j)
    {
      var size := base + if i < rem then 1 else 0;
      ShardStartStep(total, nShards, i);
      ShardStartBounds(total, nShards, i + 1);
      FlattenSlice(shards, xs, start, start + size);
      shards := shards + [xs[start..start + size]];
      start := start + size;
    }
    ShardStartBounds(total, nShards, nShards);
    assert xs[..total] == xs;
    ShardSizesEven(total, nShards);
    return Ok(shards);
  }

  lemma FlattenSlice<T>(xss: seq<seq<T>>, xs: seq<T>, lo: nat, hi: nat)
    requires lo <= hi <= |xs| && Flatten(xss) == xs[..lo]
    ensures Flatten(xss + [xs[lo..hi]]) == xs[..hi]
  {
    FlattenAppend(xss, [xs[lo..hi]]);
    FlattenOne(xs[lo..hi]);
  }

  lemma ShardSizesEven(total: nat, n: nat)
    requires n > 0
    ensures forall i: nat, j: nat :: ShardSize(total, n, i) <= ShardSize(total, n, j) + 1
    ensures total >= n ==> forall i: nat :: ShardSize(total, n, i) >= 1
  {
    if total >= n {
      assert total / n >= 1;
    }
  }

  // ---------- Micro-batches ----------

  // range(0, n, mb) slicing: full slices, then a ragged last one.
  function Micros<T>(xs: seq<T>, mb: nat): (ms: seq<seq<T>>)
    requires mb > 0
    ensures forall k :: 0 <= k < |ms| ==> 0 < |ms[k]| <= mb
    ensures xs != [] ==> ms != []
  {
    if xs == [] then [] else if |xs| <= mb then [xs] else [xs[..mb]] + Micros(xs[mb..], mb)
  }

  lemma {:induction false} MicrosCover<T>(xs: seq<T>, mb: nat)
    requires mb > 0
    ensures Flatten(Micros(xs, mb)) == xs
    decreases |xs|
  {
    if xs == [] {
    } else if |xs| <= mb {
      FlattenOne(xs);
    } else {
      MicrosCover(xs[mb..], mb);
      FlattenAppend([xs[..mb]], Micros(xs[mb..], mb));
      FlattenOne(xs[..mb]);
    }
  }

  // When the size divides the batch every slice is full, and there are len/mb of them.
  lemma {:induction false} MicrosDivide<T>(xs: seq<T>, mb: nat)
    requires mb > 0 && |xs| % mb == 0
    ensures |Micros(xs, mb)| == |xs| / mb
    ensures forall k :: 0 <= k < |Micros(xs, mb)| ==> |Micros(xs, mb)[k]| == mb
    decreases |xs|
  {
    if |xs| < mb {
      DivUnique(|xs|, mb, 0, |xs|);
    } else {
      ModSub(|xs|, mb);
      var rest := xs[mb..];
      if rest == [] {
        DivUnique(|xs|, mb, 1, 0);
      } else {
        MicrosDivide(rest, mb);
        assert Micros(xs, mb) == [xs[..mb]] + Micros(rest, mb);
      }
    }
  }

  lemma ModSub(n: nat, mb: nat)
    requires mb > 0 && n >= mb
    ensures (n - mb) % mb == n % mb && (n - mb) / mb == n / mb - 1
  {
    var q, r := n / mb, n % mb;
    assert n == q * mb + r;
    assert (q - 1) * mb == q * mb - mb;
    DivUnique(n - mb, mb, q - 1, r);
  }

  lemma DivUnique(n: int, mb: nat, q: int, r: int)
    requires mb > 0 && n == q * mb + r && 0 <= r < mb
    ensures n / mb == q && n % mb == r
  {
    EuclidUnique(mb, q, r, n / mb, n % mb);
  }

  lemma EuclidUnique(mb: nat, q: int, r: int, q': int, r': int)
    requires q * mb + r == q' * mb + r' && 0 <= r < mb && 0 <= r' < mb
    ensures q == q' && r == r'
  {
    assert (q - q') * mb == r' - r && (q' - q) * mb == r - r';
    if q > q' {
      MulAtLeast(q - q', mb);
    } else if q' > q {
      MulAtLeast(q' - q, mb);
    }
  }

  lemma MulAtLeast(k: int, mb: nat)
    requires k >= 1
    ensures k * mb >= mb
  {
  }

  // ---------- Micro-batch choice ----------

  // FSDPWorkerActor.forward_backward: fall back to one batch when the size does not divide the shard.
  function ActorMicroSize(len: nat, configured: Option<int>): (mb: nat)
    requires len > 0
    ensures mb > 0 && len % mb == 0
    ensures configured.Some? && configured.value > 0 ==> (mb == configured.value <==> len % configured.value == 0)
    ensures mb != len ==> configured == Some(mb)
  {
    if configured.Some? && configured.value > 0 && len % configured.value == 0 then configured.value else len
  }

  predicate DividesAll<T>(shards: seq<seq<T>>, mb: int)
    requires mb > 0
  {
    forall i :: 0 <= i < |shards| && shards[i] != [] ==> |shards[i]| % mb == 0
  }

  predicate SameCounts<T>(shards: seq<seq<T>>, mb: int)
    requires mb > 0
  {
    forall i, j :: 0 <= i < |shards| && 0 <= j < |shards| && shards[i] != [] && shards[j] != [] ==>
                     |shards[i]| / mb == |shards[j]| / mb
  }

  // FSDPTrainingBackend.forward: keep the configured size only when it divides
  // every non-empty shard and every shard then makes the same number of micro-batches.
  method EffectiveMicroSize<T>(shards: seq<seq<T>>, mb: int) returns (eff: Option<int>)
    ensures eff == if mb > 0 && DividesAll(shards, mb) && SameCounts(shards, mb)
                      && (exists i :: 0 <= i < |shards| && shards[i] != [])
                   then Some(mb) else None
  {
    if mb <= 0 || exists i :: 0 <= i < |shards| && shards[i] != [] && |shards[i]| % mb != 0 {
      return None;
    }
    var counts := CountSet(shards, mb);
    CountSetDecides(shards, mb, counts);
    eff := if |counts| == 1 then Some(mb) else None;
  }

  // {len(s) // mb for s in shards if s}
  method CountSet<T>(shards: seq<seq<T>>, mb: int) returns (counts: set<int>)
    requires mb > 0
    ensures IsCountSet(shards, mb, counts)
  {
    counts := {};
    for i := 0 to |shards|
      invariant IsCountSet(shards[..i], mb, counts)
    {
      CountSetStep(shards, mb, counts, i);
      if shards[i] != [] {
        counts := counts + {|shards[i]| / mb};
      }
    }
    assert shards[..|shards|] == shards;
  }

  lemma CountSetStep<T>(shards: seq<seq<T>>, mb: int, counts: set<int>, i: nat)
    requires mb > 0 && i < |shards| && IsCountSet(shards[..i], mb, counts)
    ensures IsCountSet(shards[..i + 1], mb, if shards[i] != [] then counts + {|shards[i]| / mb} else counts)
  {
    var longer := shards[..i + 1];
    var extended := if shards[i] != [] then counts + {|shards[i]| / mb} else counts;
    forall c | c in extended
      ensures exists j :: 0 <= j < |longer| && longer[j] != [] && |longer[j]| / mb == c
    {
      if c in counts {
        var j :| 0 <= j < i && shards[..i][j] != [] && |shards[..i][j]| / mb == c;
        assert longer[j] == shards[..i][j];
      } else {
        assert longer[i] == shards[i];
      }
    }
    forall j | 0 <= j < |longer| && longer[j] != []
      ensures |longer[j]| / mb in extended
    {
      assert j < i ==> longer[j] == shards[..i][j];
    }
  }

  ghost predicate IsCountSet<T>(shards: seq<seq<T>>, mb: int, counts: set<int>)
    requires mb > 0
  {
    && (forall j :: 0 <= j < |shards| && shards[j] != [] ==> |shards[j]| / mb in counts)
    && (forall c :: c in counts ==> exists j :: 0 <= j < |shards| && shards[j] != [] && |shards[j]| / mb == c)
  }

  lemma CountSetDecides<T>(shards: seq<seq<T>>, mb: int, counts: set<int>)
    requires mb > 0 && IsCountSet(shards, mb, counts)
    ensures |counts| == 1 <==> SameCounts(shards, mb) && exists i :: 0 <= i < |shards| && shards[i] != []
  {
    if i :| 0 <= i < |shards| && shards[i] != [] {
      var x := |shards[i]| / mb;
      if |counts| == 1 {
        SingletonOnly(counts, x);
      }
      if SameCounts(shards, mb) {
        forall y | y in counts ensures y in {x} {
        }
        assert counts <= {x} && {x} <= counts;
        assert counts == {x};
      }
    } else {
      assert forall y :: y !in counts;
      assert counts <= {};
    }
  }

  lemma SingletonOnly<T>(s: set<T>, x: T)
    requires |s| == 1 && x in s
    ensures s == {x}
  {
    assert |s - {x}| == 0;
  }

  // ---------- Lock-step ----------

  // Micro-batches one actor runs on a shard, as FSDPWorkerActor counts them.
  function ActorMicroCount(len: nat, eff: Option<int>): nat
    requires len > 0
  {
    len / ActorMicroSize(len, eff)
  }

  // Whatever size is configured and however the batch splits, every rank runs the
  // same positive number of micro-batches, so the ranks' collectives stay paired.
  lemma RanksInLockStep<T>(shards: seq<seq<T>>, mb: int, eff: Option<int>)
    requires forall i :: 0 <= i < |shards| ==> shards[i] != []
    requires eff == if mb > 0 && DividesAll(shards, mb) && SameCounts(shards, mb) && |shards| > 0 then Some(mb) else None
    ensures forall i, j :: 0 <= i < |shards| && 0 <= j < |shards| ==>
                             ActorMicroCount(|shards[i]|, eff) == ActorMicroCount(|shards[j]|, eff) > 0
    ensures forall i :: 0 <= i < |shards| ==>
                          ActorMicroCount(|shards[i]|, eff) == |Micros(shards[i], ActorMicroSize(|shards[i]|, eff))|
  {
    forall i | 0 <= i < |shards|
      ensures ActorMicroCount(|shards[i]|, eff) == |Micros(shards[i], ActorMicroSize(|shards[i]|, eff))| > 0
    {
      MicrosDivide(shards[i], ActorMicroSize(|shards[i]|, eff));
    }
    forall i | 0 <= i < |shards| && eff.None?
      ensures ActorMicroCount(|shards[i]|, eff) == 1
    {
      DivUnique(|shards[i]|, |shards[i]|, 1, 0);
    }
  }

  // For sizes of two and more, dividing every shard already forces the shards
  // to be equal; the source's second check only ever matters for size one.
  lemma DivisibilityForcesEqualShards<T>(xs: seq<T>, shards: seq<seq<T>>, mb: int)
    requires mb >= 2 && EvenSplit(xs, shards)
    requires forall i :: 0 <= i < |shards| ==> shards[i] != []
    requires DividesAll(shards, mb)
    ensures forall i, j :: 0 <= i < |shards| && 0 <= j < |shards| ==> |shards[i]| == |shards[j]|
    ensures SameCounts(shards, mb)
  {
    forall i, j | 0 <= i < |shards| && 0 <= j < |shards|
      ensures |shards[i]| == |shards[j]|
    {
      MultiplesApart(|shards[i]|, |shards[j]|, mb);
    }
  }

  lemma MultiplesApart(a: nat, b: nat, mb: int)
    requires mb >= 2 && a % mb == 0 && b % mb == 0
    requires a <= b + 1 && b <= a + 1
    ensures a == b
  {
    var p, q := a / mb, b / mb;
    assert a == p * mb && b == q * mb;
    if p < q {
      MulAtLeast(q - p, mb);
    } else if q < p {
      MulAtLeast(p - q, mb);
    }
  }

  // Size one: the check keeps the size exactly when the ranks divide the batch.
  lemma SizeOneNeedsEqualShards<T>(total: nat, n: nat, shards: seq<seq<T>>)
    requires n > 0 && total >= n && |shards| == n
    requires forall i :: 0 <= i < n ==> |shards[i]| == ShardSize(total, n, i)
    ensures DividesAll(shards, 1)
    ensures SameCounts(shards, 1) <==> total % n == 0
  {
    assert total / n >= 1;
    if total % n != 0 {
      assert |shards[0]| == total / n + 1;
      assert |shards[n - 1]| == total / n;
      assert shards[0] != [] && shards[n - 1] != [];
      assert |shards[0]| / 1 != |shards[n - 1]| / 1;
    }
  }

  // ---------- The documented number of micro-batches ----------

  function CeilDiv(n: nat, mb: nat): nat
    requires mb > 0
  {
    (n + mb - 1) / mb
  }

  // Range slicing makes ceil(n / mb) slices.
  lemma {:induction false} MicrosCount<T>(xs: seq<T>, mb: nat)
    requires mb > 0
    ensures |Micros(xs, mb)| == CeilDiv(|xs|, mb)
    decreases |xs|
  {
    if |xs| <= mb {
      CeilOfSmall(|xs|, mb);
    } else {
      MicrosCount(xs[mb..], mb);
      DivStep(|xs| + mb - 1, mb);
    }
  }

  lemma CeilOfSmall(n: nat, mb: nat)
    requires 0 < mb
    ensures CeilDiv(n, mb) <= 1 <==> n <= mb
    ensures CeilDiv(n, mb) == 0 <==> n == 0
  {
    if n == 0 {
      DivUnique(n + mb - 1, mb, 0, mb - 1);
    } else if n <= mb {
      DivUnique(n + mb - 1, mb, 1, n - 1);
    } else {
      DivStep(n + mb - 1, mb);
      DivStep(n - 1, mb);
    }
  }

  lemma DivStep(n: nat, mb: nat)
    requires 0 < mb <= n
    ensures n / mb == (n - mb) / mb + 1 && (n - mb) / mb >= 0
  {
    ModSub(n, mb);
  }

  // One micro-batch for the whole, or one for every full slice: what the backend runs
  // agrees with the documented ceiling exactly when the size divides, or is no smaller.
  lemma CountIsCeilingExactly(len: nat, mb: nat, size: nat)
    requires len > 0 && mb > 0
    requires size == if len % mb == 0 then mb else len
    ensures len / size == CeilDiv(len, mb) <==> len % mb == 0 || mb >= len
  {
    if len % mb == 0 {
      DivUnique(len + mb - 1, mb, len / mb, mb - 1);
    } else {
      DivUnique(len, len, 1, 0);
      CeilOfSmall(len, mb);
    }
  }

  // The same over ranks: every rank runs ceil(shard / mb) micro-batches exactly when the
  // batch is a multiple of ranks times size, or no larger than that.
  lemma ShardsSplitAsDocumentedExactly<T>(total: nat, n: nat, shards: seq<seq<T>>, mb: nat, eff: Option<int>)
    requires 0 < n <= total && |shards| == n && mb > 0
    requires forall i :: 0 <= i < n ==> |shards[i]| == ShardSize(total, n, i)
    requires eff == if DividesAll(shards, mb) && SameCounts(shards, mb) && (exists i :: 0 <= i < |shards| && shards[i] != []) then Some(mb) else None
    ensures (forall i :: 0 <= i < n ==> shards[i] != [] && |Micros(shards[i], ActorMicroSize(|shards[i]|, eff))| == CeilDiv(|shards[i]|, mb))
              <==> total % (n * mb) == 0 || total <= n * mb
  {
    ShardSizesEven(total, n);
    assert forall i :: 0 <= i < n ==> shards[i] != [];
    assert shards[0] != [];
    MulPositive(n, mb);
    if eff.Some? {
      EqualShardsDivide(total, n, shards, mb);
      KeptSizeCounts(shards, mb);
    } else {
      OneForAllCounts(shards);
      SmallShards(total, n, shards, mb);
      if total % (n * mb) == 0 {
        MultipleDivides(total, n, shards, mb);
      }
    }
  }

  lemma KeptSizeCounts<T>(shards: seq<seq<T>>, mb: nat)
    requires mb > 0 && DividesAll(shards, mb) && forall i :: 0 <= i < |shards| ==> shards[i] != []
    ensures forall i :: 0 <= i < |shards| ==> |Micros(shards[i], ActorMicroSize(|shards[i]|, Some(mb)))| == CeilDiv(|shards[i]|, mb)
  {
    forall i | 0 <= i < |shards|
      ensures |Micros(shards[i], ActorMicroSize(|shards[i]|, Some(mb)))| == CeilDiv(|shards[i]|, mb)
    {
      MicrosCount(shards[i], mb);
    }
  }

  lemma OneForAllCounts<T>(shards: seq<seq<T>>)
    requires forall i :: 0 <= i < |shards| ==> shards[i] != []
    ensures forall i :: 0 <= i < |shards| ==> |Micros(shards[i], ActorMicroSize(|shards[i]|, None))| == 1
  {
    forall i | 0 <= i < |shards|
      ensures |Micros(shards[i], ActorMicroSize(|shards[i]|, None))| == 1
    {
      var len := |shards[i]|;
      MicrosCount(shards[i], len);
      DivUnique(len + len - 1, len, 1, len - 1);
    }
  }

  lemma MulPositive(n: nat, mb: nat)
    requires n > 0 && mb > 0
    ensures n * mb > 0
  {
  }

  lemma EqualShardsDivide<T>(total: nat, n: nat, shards: seq<seq<T>>, mb: nat)
    requires 0 < n <= total && |shards| == n && mb > 0
    requires forall i :: 0 <= i < n ==> |shards[i]| == ShardSize(total, n, i)
    requires DividesAll(shards, mb) && SameCounts(shards, mb) && n * mb > 0
    ensures total % (n * mb) == 0
  {
    var q, r := total / n, total % n;
    assert q >= 1;
    var a, b := |shards[0]|, |shards[n - 1]|;
    assert shards[0] != [] && shards[n - 1] != [] && a % mb == 0 && b % mb == 0;
    assert a == (a / mb) * mb && b == (b / mb) * mb;
    assert a == b == q && r == 0;
    var k := q / mb;
    assert total == n * (k * mb) == k * (n * mb) by {
      Commute(n, k, mb);
    }
    DivUnique(total, n * mb, k, 0);
  }

  lemma Commute(n: nat, k: nat, mb: nat)
    ensures n * (k * mb) == k * (n * mb)
  {
  }

  lemma SmallShards<T>(total: nat, n: nat, shards: seq<seq<T>>, mb: nat)
    requires 0 < n <= total && |shards| == n && mb > 0
    requires forall i :: 0 <= i < n ==> |shards[i]| == ShardSize(total, n, i)
    ensures (forall i :: 0 <= i < n ==> CeilDiv(|shards[i]|, mb) == 1) <==> total <= n * mb
  {
    LargestShard(total, n, mb);
    forall i | 0 <= i < n
      ensures |shards[i]| <= ShardSize(total, n, 0)
      ensures CeilDiv(|shards[i]|, mb) == 1 <==> |shards[i]| <= mb
    {
      ShardSizesEven(total, n);
      CeilOfSmall(|shards[i]|, mb);
    }
  }

  lemma LargestShard(total: nat, n: nat, mb: nat)
    requires 0 < n <= total
    ensures ShardSize(total, n, 0) <= mb <==> total <= n * mb
  {
    var q, r := total / n, total % n;
    assert total == n * q + r;
    var s := ShardSize(total, n, 0);
    if r == 0 {
      if q <= mb {
        MulMono(n, q, mb);
      } else {
        MulMono(n, mb, q - 1);
        Distribute(n, q - 1);
      }
    } else {
      if q + 1 <= mb {
        MulMono(n, q + 1, mb);
        Distribute(n, q);
      } else {
        MulMono(n, mb, q);
      }
    }
  }

  lemma Distribute(n: nat, q: nat)
    ensures n * (q + 1) == n * q + n
  {
  }

  lemma MulMono(n: nat, a: nat, b: nat)
    requires a <= b
    ensures n * a <= n * b
  {
  }

  lemma MultipleDivides<T>(total: nat, n: nat, shards: seq<seq<T>>, mb: nat)
    requires 0 < n <= total && |shards| == n && mb > 0 && n * mb > 0
    requires forall i :: 0 <= i < n ==> |shards[i]| == ShardSize(total, n, i)
    requires total % (n * mb) == 0
    ensures DividesAll(shards, mb) && SameCounts(shards, mb)
  {
    var k := total / (n * mb);
    assert total == k * (n * mb) == (k * mb) * n by {
      Commute(n, k, mb);
    }
    DivUnique(total, n, k * mb, 0);
    DivUnique(k * mb, mb, k, 0);
    assert forall i :: 0 <= i < n ==> |shards[i]| == k * mb;
  }
}
