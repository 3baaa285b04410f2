/** The logical (IR) dataset node for a directory-of-images source,
    `ImageFolderNode`: its configuration, its copy, validation, lowering,
    shard-id and dataset-size operations. */
module ImageFolder {
  import opened Ints
  import opened Optional
  import opened Status
  import opened Sampler
  import opened Schema
  import opened DatasetOps

  /** The node name handed to the parameter validators. */
  const NodeName: string := "ImageFolderNode"

  /** `dataset_size_` before any successful computation. */
  const SizeUnset: int64 := -1

  /** The configuration an `ImageFolderNode` is constructed with. */
  datatype NodeConfig = NodeConfig(
    datasetDir: string,
    decode: bool,
    sampler: Option<SamplerObj>,
    recursive: bool,
    extensions: set<string>,
    classIndexing: map<string, int32>,
    cache: Option<DatasetCache>)

  /** `num_workers_`, `rows_per_buffer_` and `connector_que_size_`: set by the
      base-class constructor from the run-time configuration, passed through opaquely. */
  datatype RuntimeParams = RuntimeParams(numWorkers: int32, rowsPerBuffer: int32, connectorQueSize: int32)

  /** `ValidateDatasetDirParam` and `ValidateDatasetSampler`, each given the node name. */
  datatype Validators = Validators(
    datasetDir: (string, string) -> Status,
    sampler: (string, Option<SamplerObj>) -> Status)

  /** What `AddCacheOp` appended to the operator vector, and the status it returned. */
  datatype CacheOutcome = CacheOutcome(added: seq<DatasetOp>, status: Status)

  /** The collaborators of `Build`. */
  datatype Lowering = Lowering(
    admitColumn: ColumnAdmission,
    addCacheOp: (Option<DatasetCache>, int32) -> CacheOutcome,
    sampler: SamplerApi)

  /** `ImageFolderOp::CountRowsAndClasses(dir, extensions, class_indexing)`: the number of rows. */
  type RowCounter = (string, set<string>, map<string, int32>) -> Result<int64>

  /** `Copy`: the same configuration, with the sampler deep-copied when there is one. */
  function CopyConfig(c: NodeConfig, api: SamplerApi): (r: NodeConfig)
    ensures r.datasetDir == c.datasetDir && r.decode == c.decode && r.recursive == c.recursive
    ensures r.extensions == c.extensions && r.classIndexing == c.classIndexing && r.cache == c.cache
    ensures r.sampler.None? <==> c.sampler.None?
    ensures c.sampler.Some? ==> r.sampler.value == api.copy(c.sampler.value)
  {
    var sampler := if c.sampler.None? then None else Some(api.copy(c.sampler.value));
    NodeConfig(c.datasetDir, c.decode, sampler, c.recursive, c.extensions, c.classIndexing, c.cache)
  }

  /** `ValidateParams`: the base-class check, then the directory, then the sampler;
      `base` is what `DatasetNode::ValidateParams` returns for this node. */
  function ValidateParams(c: NodeConfig, base: Status, v: Validators): (r: Status)
    ensures r == FirstError([base, v.datasetDir(NodeName, c.datasetDir), v.sampler(NodeName, c.sampler)])
    ensures r == Ok <==>
      base == Ok && v.datasetDir(NodeName, c.datasetDir) == Ok && v.sampler(NodeName, c.sampler) == Ok
  {
    if base != Ok then base
    else
      var dir := v.datasetDir(NodeName, c.datasetDir);
      var sampler := v.sampler(NodeName, c.sampler);
      FirstErrorCons(base, [dir, sampler]);
      FirstErrorCons(dir, [sampler]);
      FirstErrorCons(sampler, []);
      if dir != Ok then dir else sampler
  }

  /** `GetShardId`: always OK, reporting the sampler's shard id. */
  function GetShardId(c: NodeConfig, api: SamplerApi): (r: (Status, int32))
    requires c.sampler.Some?
    ensures r.0 == Ok && r.1 == api.shardId(c.sampler.value)
  {
    (Ok, api.shardId(c.sampler.value))
  }

  /** The physical source operator a node lowers to, its arguments in the
      order of the `ImageFolderOp` constructor. */
  function SourceOp(c: NodeConfig, rt: RuntimeParams, schema: DataSchema, built: SamplerRT): (r: DatasetOp)
    ensures r.ImageFolderOp?
    ensures r.numWorkers == rt.numWorkers && r.rowsPerBuffer == rt.rowsPerBuffer
    ensures r.datasetDir == c.datasetDir && r.queueSize == rt.connectorQueSize
    ensures r.recursive == c.recursive && r.decode == c.decode
    ensures r.extensions == c.extensions && r.classIndexing == c.classIndexing
    ensures r.schema == schema && r.sampler == built
  {
    ImageFolderOp(rt.numWorkers, rt.rowsPerBuffer, c.datasetDir, rt.connectorQueSize,
                  c.recursive, c.decode, c.extensions, c.classIndexing, schema, built)
  }

  /** `Build` dereferences the sampler only once the schema is built and the cache op is added. */
  predicate CanLower(c: NodeConfig, rt: RuntimeParams, env: Lowering)
  {
    || c.sampler.Some?
    || BuildSchema(env.admitColumn).Failure?
    || env.addCacheOp(c.cache, rt.numWorkers).status != Ok
  }

  /** What one call of `Build` returns and appends to the operator vector. */
  datatype BuildStep = BuildStep(status: Status, added: seq<DatasetOp>)

  /** The specification of `Build`. */
  function Lowered(c: NodeConfig, rt: RuntimeParams, env: Lowering): (r: BuildStep)
    requires CanLower(c, rt, env)
    ensures BuildSchema(env.admitColumn).Failure? ==>
      r.status == Err(BuildSchema(env.admitColumn).error) && r.added == []
    ensures BuildSchema(env.admitColumn).Success? && env.addCacheOp(c.cache, rt.numWorkers).status != Ok ==>
      r == BuildStep(env.addCacheOp(c.cache, rt.numWorkers).status, env.addCacheOp(c.cache, rt.numWorkers).added)
    ensures r.status == Ok <==>
      BuildSchema(env.admitColumn).Success? && env.addCacheOp(c.cache, rt.numWorkers).status == Ok
    ensures r.status == Ok ==>
      var cacheOps := env.addCacheOp(c.cache, rt.numWorkers).added;
      && |r.added| == |cacheOps| + 1
      && r.added[..|cacheOps|] == cacheOps
      && r.added[|cacheOps|] == SourceOp(c, rt, BuildSchema(env.admitColumn).value, env.sampler.build(c.sampler.value))
  {
    match BuildSchema(env.admitColumn)
    case Failure(e) => BuildStep(Err(e), [])
    case Success(schema) =>
      var cache := env.addCacheOp(c.cache, rt.numWorkers);
      if cache.status != Ok then BuildStep(cache.status, cache.added)
      else BuildStep(Ok, cache.added + [SourceOp(c, rt, schema, env.sampler.build(c.sampler.value))])
  }

  /** What one call of `GetDatasetSize` returns, writes to the out-parameter and memoises. */
  datatype SizeStep = SizeStep(status: Status, out: int64, memo: int64)

  /** `GetDatasetSize` needs the sampler only when it has to count. */
  predicate CanSize(memo: int64, c: NodeConfig, count: RowCounter)
  {
    memo > 0 || count(c.datasetDir, c.extensions, map[]).Failure? || c.sampler.Some?
  }

  /** The specification of `GetDatasetSize`, from the memo `memo` and the
      out-parameter's previous value `out`. `estimate` is accepted and unused. */
  function SizeQuery(memo: int64, out: int64, c: NodeConfig, estimate: bool, count: RowCounter, api: SamplerApi): (r: SizeStep)
    requires CanSize(memo, c, count)
    ensures memo > 0 ==> r == SizeStep(Ok, memo, memo)
    ensures r.status == Ok ==> r.out == r.memo
    ensures r.status != Ok ==> r.out == out && r.memo == memo
    ensures memo <= 0 ==> match count(c.datasetDir, c.extensions, map[])
      case Failure(e) => r.status == Err(e)
      case Success(rows) => r.status == Ok && r.memo == api.calculateNumSamples(api.build(c.sampler.value), rows)
  {
    if memo > 0 then SizeStep(Ok, memo, memo)
    else match count(c.datasetDir, c.extensions, map[])
      case Failure(e) => SizeStep(Err(e), out, memo)
      case Success(rows) =>
        var size := api.calculateNumSamples(api.build(c.sampler.value), rows);
        SizeStep(Ok, size, size)
  }

  class ImageFolderNode {
    const config: NodeConfig
    const runtime: RuntimeParams
    /** `dataset_size_`, the memoised result of `GetDatasetSize`. */
    var datasetSize: int64

    /** The constructor: each argument lands in its field; the memo starts unset. */
    constructor (datasetDir: string, decode: bool, sampler: Option<SamplerObj>, recursive: bool,
                 extensions: set<string>, classIndexing: map<string, int32>, cache: Option<DatasetCache>,
                 runtime: RuntimeParams)
      ensures config == NodeConfig(datasetDir, decode, sampler, recursive, extensions, classIndexing, cache)
      ensures this.runtime == runtime
      ensures datasetSize == SizeUnset
    {
      config := NodeConfig(datasetDir, decode, sampler, recursive, extensions, classIndexing, cache);
      this.runtime := runtime;
      datasetSize := SizeUnset;
    }

    /** `Copy`: a new node built by the constructor from this one's configuration,
        so its run-time parameters are the current defaults and its memo is unset. */
    method Copy(api: SamplerApi, defaults: RuntimeParams) returns (node: ImageFolderNode)
      ensures fresh(node)
      ensures node.config == CopyConfig(config, api)
      ensures node.runtime == defaults && node.datasetSize == SizeUnset
    {
      var c := CopyConfig(config, api);
      node := new ImageFolderNode(c.datasetDir, c.decode, c.sampler, c.recursive,
                                  c.extensions, c.classIndexing, c.cache, defaults);
    }

    /** `Build`: lower this node onto the end of the caller's operator vector. */
    method Build(env: Lowering, nodeOps: OpVector) returns (status: Status)
      requires CanLower(config, runtime, env)
      modifies nodeOps
      ensures status == Lowered(config, runtime, env).status
      ensures nodeOps.ops == old(nodeOps.ops) + Lowered(config, runtime, env).added
    {
      var schema := BuildSchema(env.admitColumn);
      if schema.Failure? {
        return Err(schema.error);
      }
      var cache := env.addCacheOp(config.cache, runtime.numWorkers);
      nodeOps.Append(cache.added);
      if cache.status != Ok {
        return cache.status;
      }
      var built := env.sampler.build(config.sampler.value);
      nodeOps.PushBack(SourceOp(config, runtime, schema.value, built));
      return Ok;
    }

    /** `GetDatasetSize`: the memo when it is positive, otherwise count the
        rows, size them through the sampler and memoise the result. */
    method GetDatasetSize(count: RowCounter, api: SamplerApi, estimate: bool, datasetSizeOut: Int64Cell)
      returns (status: Status)
      requires CanSize(datasetSize, config, count)
      modifies this`datasetSize, datasetSizeOut
      ensures var step := SizeQuery(old(datasetSize), old(datasetSizeOut.value), config, estimate, count, api);
        status == step.status && datasetSizeOut.value == step.out && datasetSize == step.memo
    {
      if datasetSize > 0 {
        datasetSizeOut.value := datasetSize;
        return Ok;
      }
      var numRows := count(config.datasetDir, config.extensions, map[]);
      if numRows.Failure? {
        return Err(numRows.error);
      }
      var sampleSize := api.calculateNumSamples(api.build(config.sampler.value), numRows.value);
      datasetSizeOut.value := sampleSize;
      datasetSize := datasetSizeOut.value;
      return Ok;
    }
  }
}
