/** The sampler protocol an IR node relies on. The sampling strategies live
    outside this model: a sampler is an opaque handle, and what its virtual
    methods return is given by the oracles of `SamplerApi`. */
module Sampler {
  import opened Ints

  /** An IR sampler (`SamplerObj`), owned by one dataset node. */
  datatype SamplerObj = SamplerObj(handle: nat)

  /** A lowered run-time sampler (`SamplerRT`), the result of `SamplerObj::Build`. */
  datatype SamplerRT = SamplerRT(handle: nat)

  /** The virtual methods of a sampler: `SamplerObj::Copy`, `SamplerObj::Build`,
      `SamplerObj::ShardId` and `SamplerRT::CalculateNumSamples`. */
  datatype SamplerApi = SamplerApi(
    copy: SamplerObj -> SamplerObj,
    build: SamplerObj -> SamplerRT,
    shardId: SamplerObj -> int32,
    calculateNumSamples: (SamplerRT, int64) -> int64)

  /** A deep copy of a sampler reports the shard id of the original. */
  ghost predicate CopyKeepsShardId(api: SamplerApi)
  {
    forall s :: api.shardId(api.copy(s)) == api.shardId(s)
  }

  /** The sample-count contract of every sampler strategy: no rows give no
      samples, and more rows never give fewer samples. */
  ghost predicate NumSamplesContract(api: SamplerApi)
  {
    && (forall rt :: api.calculateNumSamples(rt, 0) == 0)
    && (forall rt, a: int64, b: int64 {:trigger api.calculateNumSamples(rt, a), api.calculateNumSamples(rt, b)} ::
          0 <= a <= b ==> api.calculateNumSamples(rt, a) <= api.calculateNumSamples(rt, b))
  }
}
