/** Physical operators, as far as lowering an IR node sees them, and the
    caller-owned operator vector that lowering appends to. */
module DatasetOps {
  import opened Ints
  import opened Sampler
  import opened Schema

  /** A shared handle on a cache service (`std::shared_ptr<DatasetCache>`). */
  datatype DatasetCache = DatasetCache(handle: nat)

  datatype DatasetOp =
    | ImageFolderOp(
        numWorkers: int32, rowsPerBuffer: int32, datasetDir: string, queueSize: int32,
        recursive: bool, decode: bool, extensions: set<string>, classIndexing: map<string, int32>,
        schema: DataSchema, sampler: SamplerRT)
    | CacheOp(cache: DatasetCache)
      /** An operator of some other node kind that is already in the vector. */
    | OtherOp(name: string)

  /** The number of image-folder source operators in an operator list. */
  function CountSourceOps(ops: seq<DatasetOp>): nat
  {
    if ops == [] then 0
    else (if ops[0].ImageFolderOp? then 1 else 0) + CountSourceOps(ops[1..])
  }

  lemma {:induction false} CountSourceOpsAppend(a: seq<DatasetOp>, b: seq<DatasetOp>)
    ensures CountSourceOps(a + b) == CountSourceOps(a) + CountSourceOps(b)
  {
    if a != [] {
      assert (a + b)[1..] == a[1..] + b;
      CountSourceOpsAppend(a[1..], b);
    } else {
      assert a + b == b;
    }
  }

  /** `std::vector<std::shared_ptr<DatasetOp>>`, owned by the caller of `Build`. */
  class OpVector {
    var ops: seq<DatasetOp>

    constructor (ops: seq<DatasetOp>)
      ensures this.ops == ops
    {
      this.ops := ops;
    }

    /** `push_back` */
    method PushBack(op: DatasetOp)
      modifies this
      ensures ops == old(ops) + [op]
    {
      ops := ops + [op];
    }

    /** Several `push_back`s, in order. */
    method Append(more: seq<DatasetOp>)
      modifies this
      ensures ops == old(ops) + more
    {
      ops := ops + more;
    }
  }
}
