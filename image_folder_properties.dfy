/** Properties of `ImageFolderNode` that relate several calls, or a call and
    the contracts its collaborators promise. */
module ImageFolderProperties {
  import opened Ints
  import opened Optional
  import opened Status
  import opened Sampler
  import opened Schema
  import opened DatasetOps
  import opened ImageFolder

  // ---- Copy ----

  /** A copy reports the same shard id as its original, when sampler copies keep shard ids. */
  lemma CopyReportsSameShard(c: NodeConfig, api: SamplerApi)
    requires CopyKeepsShardId(api) && c.sampler.Some?
    ensures GetShardId(CopyConfig(c, api), api) == GetShardId(c, api)
  {
  }

  /** A copy is validated exactly as its original is, when neither the base
      check nor the sampler check can tell the copy from its original. The base
      check `baseCheck` runs on each node's own run-time parameters: `rt` for the
      original, `defaults` for the copy, which the constructor gives the defaults. */
  lemma CopyValidatesAlike(c: NodeConfig, rt: RuntimeParams, defaults: RuntimeParams,
                           baseCheck: RuntimeParams -> Status, v: Validators, api: SamplerApi)
    requires baseCheck(defaults) == baseCheck(rt)
    requires forall s :: v.sampler(NodeName, Some(api.copy(s))) == v.sampler(NodeName, Some(s))
    ensures ValidateParams(CopyConfig(c, api), baseCheck(defaults), v) == ValidateParams(c, baseCheck(rt), v)
  {
  }

  // ---- ValidateParams ----

  /** Fail-fast: once a check fails, the checks after it have no influence on the result. */
  lemma ValidateParamsStopsAtFirstFailure(c: NodeConfig, base: Status, v: Validators, w: Validators)
    ensures base != Ok ==> ValidateParams(c, base, v) == base == ValidateParams(c, base, w)
    ensures base == Ok && v.datasetDir(NodeName, c.datasetDir) != Ok
              && w.datasetDir(NodeName, c.datasetDir) == v.datasetDir(NodeName, c.datasetDir) ==>
            ValidateParams(c, base, v) == v.datasetDir(NodeName, c.datasetDir) == ValidateParams(c, base, w)
  {
  }

  /** Validators that refuse an empty directory and a missing sampler. */
  ghost predicate FailsClosed(v: Validators)
  {
    v.datasetDir(NodeName, "") != Ok && v.sampler(NodeName, None) != Ok
  }

  /** Validation fails closed: an empty path or a null sampler is an error. */
  lemma ValidationFailsClosed(c: NodeConfig, base: Status, v: Validators)
    requires FailsClosed(v)
    requires c.datasetDir == "" || c.sampler.None?
    ensures ValidateParams(c, base, v) != Ok
  {
  }

  /** A validated node can be lowered and sized: every sampler dereference is safe. */
  lemma ValidatedNodeHasSampler(c: NodeConfig, base: Status, v: Validators, rt: RuntimeParams,
                                env: Lowering, memo: int64, count: RowCounter)
    requires FailsClosed(v) && ValidateParams(c, base, v) == Ok
    ensures c.sampler.Some? && CanLower(c, rt, env) && CanSize(memo, c, count)
  {
  }

  // ---- Build ----

  /** The cache injector the lowering protocol expects: nothing without a cache
      descriptor; with one, a single caching operator, or a failure with nothing appended. */
  ghost predicate WellBehavedCache(env: Lowering)
  {
    && (forall w: int32 :: env.addCacheOp(None, w) == CacheOutcome([], Ok))
    && (forall d, w: int32 :: env.addCacheOp(Some(d), w).status == Ok ==> env.addCacheOp(Some(d), w).added == [CacheOp(d)])
    && (forall d, w: int32 :: env.addCacheOp(Some(d), w).status != Ok ==> env.addCacheOp(Some(d), w).added == [])
  }

  /** The appended source operator carries the node's state through. */
  lemma BuildPassesNodeState(c: NodeConfig, rt: RuntimeParams, env: Lowering)
    requires CanLower(c, rt, env) && Lowered(c, rt, env).status == Ok
    ensures var ops := Lowered(c, rt, env).added; var op := ops[|ops| - 1];
      && op.ImageFolderOp?
      && op.numWorkers == rt.numWorkers && op.rowsPerBuffer == rt.rowsPerBuffer
      && op.datasetDir == c.datasetDir && op.queueSize == rt.connectorQueSize
      && op.recursive == c.recursive && op.decode == c.decode
      && op.extensions == c.extensions && op.classIndexing == c.classIndexing
      && op.schema.columns == [ImageColumn, LabelColumn]
      && op.sampler == env.sampler.build(c.sampler.value)
  {
  }

  /** With a well-behaved cache injector, a successful `Build` appends the
      caching operator immediately before the source operator, or the source
      operator alone when no cache is attached; a failed `Build` appends nothing. */
  lemma BuildCacheInsertion(c: NodeConfig, rt: RuntimeParams, env: Lowering)
    requires WellBehavedCache(env) && CanLower(c, rt, env)
    ensures var step := Lowered(c, rt, env);
      && (step.status != Ok ==> step.added == [])
      && (step.status == Ok && c.cache.None? ==> |step.added| == 1 && step.added[0].ImageFolderOp?)
      && (step.status == Ok && c.cache.Some? ==>
            |step.added| == 2 && step.added[0] == CacheOp(c.cache.value) && step.added[1].ImageFolderOp?)
  {
    var cache := env.addCacheOp(c.cache, rt.numWorkers);
    if c.cache.None? {
      assert cache == CacheOutcome([], Ok);
    } else if cache.status == Ok {
      assert cache.added == [CacheOp(c.cache.value)];
    } else {
      assert cache.added == [];
    }
  }

  /** With a well-behaved cache injector, a successful `Build` adds exactly one
      source operator to the vector, and a failed one adds none. */
  lemma BuildAddsOneSourceOp(c: NodeConfig, rt: RuntimeParams, env: Lowering, before: seq<DatasetOp>)
    requires WellBehavedCache(env) && CanLower(c, rt, env)
    ensures var step := Lowered(c, rt, env);
      CountSourceOps(before + step.added) == CountSourceOps(before) + (if step.status == Ok then 1 else 0)
  {
    var step := Lowered(c, rt, env);
    BuildCacheInsertion(c, rt, env);
    CountSourceOpsAppend(before, step.added);
    if step.status == Ok {
      if c.cache.None? {
        assert step.added[1..] == [];
      } else {
        assert step.added[1..][1..] == [];
        assert CountSourceOps(step.added[1..]) == 1;
      }
    }
  }

  // ---- GetShardId ----

  /** The shard id is the sampler's, whatever else the node is configured with. */
  lemma ShardIdDependsOnlyOnSampler(c: NodeConfig, d: NodeConfig, api: SamplerApi)
    requires c.sampler.Some? && d.sampler == c.sampler
    ensures GetShardId(c, api) == GetShardId(d, api)
  {
  }

  // ---- GetDatasetSize ----

  /** `estimate` never changes what `GetDatasetSize` does. */
  lemma EstimateIsIgnored(memo: int64, out: int64, c: NodeConfig, count: RowCounter, api: SamplerApi)
    requires CanSize(memo, c, count)
    ensures SizeQuery(memo, out, c, true, count, api) == SizeQuery(memo, out, c, false, count, api)
  {
  }

  /** A positive memo answers without the row counter: any two counters give the same step. */
  lemma MemoHitIgnoresCounter(memo: int64, out: int64, c: NodeConfig, estimate: bool,
                              count: RowCounter, other: RowCounter, api: SamplerApi)
    requires memo > 0
    ensures SizeQuery(memo, out, c, estimate, count, api) == SizeQuery(memo, out, c, estimate, other, api)
  {
  }

  /** Successive calls of `GetDatasetSize` on one node, the k-th seeing the
      directory through `counts[k]` (the directory may change between calls). */
  function SizeCalls(memo: int64, out: int64, c: NodeConfig, counts: seq<RowCounter>, api: SamplerApi): (r: seq<SizeStep>)
    requires c.sampler.Some?
    ensures |r| == |counts|
    ensures |counts| > 0 ==> r[0] == SizeQuery(memo, out, c, false, counts[0], api)
    decreases |counts|
  {
    if counts == [] then []
    else
      var step := SizeQuery(memo, out, c, false, counts[0], api);
      [step] + SizeCalls(step.memo, step.out, c, counts[1..], api)
  }

  /** From a positive memo, every later call returns it unchanged. */
  lemma {:induction false} MemoAnswersForever(memo: int64, out: int64, c: NodeConfig, counts: seq<RowCounter>,
                                              api: SamplerApi, k: nat)
    requires c.sampler.Some? && memo > 0 && k < |counts|
    ensures SizeCalls(memo, out, c, counts, api)[k] == SizeStep(Ok, memo, memo)
    decreases k
  {
    var step := SizeQuery(memo, out, c, false, counts[0], api);
    if k > 0 {
      MemoAnswersForever(step.memo, step.out, c, counts[1..], api, k - 1);
    }
  }

  /** Memoisation: once a call succeeds with a positive size, every later call
      returns that size, whatever the directory then holds. */
  lemma {:induction false} PositiveSizeIsSticky(memo: int64, out: int64, c: NodeConfig, counts: seq<RowCounter>,
                                                api: SamplerApi, i: nat, j: nat)
    requires c.sampler.Some? && i < j < |counts|
    requires SizeCalls(memo, out, c, counts, api)[i].status == Ok
    requires SizeCalls(memo, out, c, counts, api)[i].out > 0
    ensures var calls := SizeCalls(memo, out, c, counts, api);
      calls[j] == SizeStep(Ok, calls[i].out, calls[i].out)
    decreases i
  {
    var step := SizeQuery(memo, out, c, false, counts[0], api);
    var rest := SizeCalls(step.memo, step.out, c, counts[1..], api);
    assert SizeCalls(memo, out, c, counts, api) == [step] + rest;
    if i == 0 {
      MemoAnswersForever(step.memo, step.out, c, counts[1..], api, j - 1);
    } else {
      PositiveSizeIsSticky(step.memo, step.out, c, counts[1..], api, i - 1, j - 1);
    }
  }

  /** A computed size of 0 is not an answer for later calls: the next call counts again. */
  lemma ZeroSizeIsRecounted(memo: int64, out: int64, c: NodeConfig, estimate: bool,
                            count: RowCounter, next: RowCounter, api: SamplerApi)
    requires c.sampler.Some?
    requires SizeQuery(memo, out, c, estimate, count, api).status == Ok
    requires SizeQuery(memo, out, c, estimate, count, api).out == 0
    ensures var step := SizeQuery(memo, out, c, estimate, count, api);
      var again := SizeQuery(step.memo, step.out, c, estimate, next, api);
      match next(c.datasetDir, c.extensions, map[])
      case Failure(e) => again == SizeStep(Err(e), 0, 0)
      case Success(rows) =>
        var size := api.calculateNumSamples(api.build(c.sampler.value), rows);
        again == SizeStep(Ok, size, size)
  {
  }

  /** Under the sample-count contract, an empty directory has size 0 and a
      directory with more rows never has a smaller size. */
  lemma SizeFollowsRowCount(memo: int64, c: NodeConfig, count: RowCounter, more: RowCounter, api: SamplerApi)
    requires NumSamplesContract(api) && c.sampler.Some? && memo <= 0
    requires count(c.datasetDir, c.extensions, map[]).Success?
    requires more(c.datasetDir, c.extensions, map[]).Success?
    ensures count(c.datasetDir, c.extensions, map[]).value == 0 ==> SizeQuery(memo, 0, c, false, count, api).out == 0
    ensures 0 <= count(c.datasetDir, c.extensions, map[]).value <= more(c.datasetDir, c.extensions, map[]).value ==>
      SizeQuery(memo, 0, c, false, count, api).out <= SizeQuery(memo, 0, c, false, more, api).out
  {
  }
}
