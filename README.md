# ImageFolderNode: the IR node of a directory-of-images source

This project models `ImageFolderNode`, the logical (IR) dataset node that
describes "read labelled images from this directory" in the MindSpore data
pipeline, and proves properties of the model in Dafny.

The node holds its configuration: the dataset directory, the decode and
recursive flags, the extension filter, the class-to-index map, an optional
sampler and an optional cache descriptor. It also holds the memoised
`dataset_size_`. Five operations are modelled:

- `Copy` builds a new node from this one's configuration and deep-copies the sampler.
- `ValidateParams` runs the base-class check, then the directory check, then the
  sampler check, and returns the first failure.
- `Build` creates a fixed two-column schema ("image", "label"). It then lets
  `AddCacheOp` append a caching operator and appends exactly one
  `ImageFolderOp` to the caller's operator vector.
- `GetShardId` reports the sampler's shard id.
- `GetDatasetSize` returns the memo when it is positive. Otherwise it counts the
  rows of the directory, sizes them through the sampler, and memoises the result.

Layout:

- `ints.dfy` (`Ints`): `int32` and `int64` ranges; `Int64Cell`, the `int64_t *` out-parameter.
- `optional.dfy` (`Optional`): `Option`, for a `shared_ptr` that may be null.
- `status.dfy` (`Status`): `Status`, `Result` and `FirstError`, the meaning of a
  `RETURN_IF_NOT_OK` chain.
- `sampler.dfy` (`Sampler`): sampler handles and the `SamplerApi` oracles.
- `schema.dfy` (`Schema`): column descriptors and the fixed image-folder schema.
- `dataset_ops.dfy` (`DatasetOps`): physical operators and `OpVector`, the
  caller's `std::vector` of operators.
- `image_folder.dfy` (`ImageFolder`): the configuration and the pure operations
  as functions. The class `ImageFolderNode` holds the memo field. `Build` and
  `GetDatasetSize` are methods, each proved against a specification function
  (`Lowered`, `SizeQuery`).
- `image_folder_properties.dfy` (`ImageFolderProperties`): lemmas that relate
  several calls, or a call and the contracts of its collaborators.

Collaborators whose code is not part of this model are parameters holding total
functions (oracles):

- `DatasetNode::ValidateParams` is passed as the status it returns.
- `ValidateDatasetDirParam` and `ValidateDatasetSampler` are in `Validators`.
- The admission rule of `DataSchema::AddColumn` is `ColumnAdmission`. An admitted
  column is appended.
- `AddCacheOp` is a function of the cache descriptor and `num_workers_`. It returns the
  operators it appended and its status.
- `ImageFolderOp::CountRowsAndClasses` is `RowCounter`.
- `SamplerObj::Copy`, `Build`, `ShardId` and `SamplerRT::CalculateNumSamples`
  are in `SamplerApi`.

Lemmas that need more than the code promises state that promise as a
hypothesis. Examples: a sampler copy keeps its shard id (`CopyKeepsShardId`),
the sample count is 0 for no rows and monotone (`NumSamplesContract`), the
validators refuse an empty path and a null sampler (`FailsClosed`), and the
cache injector appends one caching operator or nothing (`WellBehavedCache`).

Points where the model follows the code rather than a general description of
the node contract:

- `Copy` calls the constructor. So `num_workers_`, `rows_per_buffer_` and
  `connector_que_size_` of the copy are the base-class defaults, not the
  original's values, and the copy's memo starts unset. The model's `Copy` takes
  those defaults as a parameter.
- `Build` moves the result of `sampler_->Build()` into the operator and leaves
  `sampler_` in place. The IR sampler is not consumed, and `Build` may be
  called again.
- The caching operator goes into the vector before the source operator.
- `GetDatasetSize` passes an empty class map to `CountRowsAndClasses`, not
  `class_indexing_`. It ignores `estimate`. A memoised size of 0 is not
  "> 0", so a node whose size is 0 counts again on every call.
- The code checks nothing for itself: `ValidateParams` delegates every check.
  `GetShardId`, `Build` and `GetDatasetSize` dereference the sampler without a
  null check. Each such member requires a sampler only on the path where the
  dereference is reached (`CanLower`, `CanSize`).
- `dataset_size_` starts at -1 (`SizeUnset`). The base constructor that sets it
  is not part of this model, and only "> 0" is observable.

## Model

| member | source | states |
|---|---|---|
| `Status.FirstError` | mindspore/ccsrc/minddata/dataset/engine/ir/datasetops/source/image_folder_node.cc:55-62 | a `RETURN_IF_NOT_OK` chain is OK iff every step is OK; otherwise it is the first failing step, with every earlier step OK |
| `Status.FirstErrorCons` | mindspore/ccsrc/minddata/dataset/engine/ir/datasetops/source/image_folder_node.cc:56-59 | a failing first step decides the chain; an OK first step passes on to the rest |
| `Schema.BuildSchema` | mindspore/ccsrc/minddata/dataset/engine/ir/datasetops/source/image_folder_node.cc:67-71 | the schema is built iff both columns are admitted; it is then exactly "image" (uint8, rank 1, no shape) followed by "label" (int32, rank 0, scalar shape); otherwise the error is the first refusal |
| `Schema.AddColumn` | mindspore/ccsrc/minddata/dataset/engine/ir/datasetops/source/image_folder_node.cc:69-71 | a column is added iff it is admitted; it is then appended after the existing columns, and otherwise the refusal is returned and the schema is unchanged |
| `Schema.BuildSchemaSucceedsWithoutDuplicates` | mindspore/ccsrc/minddata/dataset/engine/ir/datasetops/source/image_folder_node.cc:69-71 | if columns are refused only for duplicate names, the fixed schema always builds |
| `DatasetOps.CountSourceOpsAppend` | mindspore/ccsrc/minddata/dataset/engine/ir/datasetops/source/image_folder_node.cc:75-77 | helper of `BuildAddsOneSourceOp`: the count of source operators in two joined operator lists is the sum of their counts |
| `DatasetOps.OpVector.PushBack` | mindspore/ccsrc/minddata/dataset/engine/ir/datasetops/source/image_folder_node.cc:75 | `push_back` appends one operator at the end and changes nothing else |
| `DatasetOps.OpVector.Append` | mindspore/ccsrc/minddata/dataset/engine/ir/datasetops/source/image_folder_node.cc:73 | the operators `AddCacheOp` pushes are appended in order |
| `ImageFolder.CopyConfig` | mindspore/ccsrc/minddata/dataset/engine/ir/datasetops/source/image_folder_node.cc:44-49 | the copy has the same dir, decode, recursive, extensions, class indexing and cache; its sampler is null exactly when the original's is, and is otherwise the sampler's `Copy()` |
| `ImageFolder.ValidateParams` | mindspore/ccsrc/minddata/dataset/engine/ir/datasetops/source/image_folder_node.cc:55-62 | the result is the first failure of base check, directory check and sampler check, in that order; it is OK iff all three are OK |
| `ImageFolder.GetShardId` | mindspore/ccsrc/minddata/dataset/engine/ir/datasetops/source/image_folder_node.cc:82-86 | the status is always OK and the shard id written is the sampler's `ShardId()` |
| `ImageFolder.SourceOp` | mindspore/ccsrc/minddata/dataset/engine/ir/datasetops/source/image_folder_node.cc:75-77 | the `ImageFolderOp` gets, in constructor order, num_workers, rows_per_buffer, the dataset dir, the connector queue size, recursive, decode, extensions, class indexing, the schema and the built sampler |
| `ImageFolder.Lowered` | mindspore/ccsrc/minddata/dataset/engine/ir/datasetops/source/image_folder_node.cc:64-79 | a schema failure is returned with nothing appended; an `AddCacheOp` failure is returned with only the cache's operators appended; on success the appended list is the cache's operators followed by exactly one `ImageFolderOp` built from the node and the schema |
| `ImageFolder.SizeQuery` | mindspore/ccsrc/minddata/dataset/engine/ir/datasetops/source/image_folder_node.cc:89-101 | a positive memo is returned as is; otherwise a failed count is returned and neither output nor memo changes, and a successful count writes `CalculateNumSamples(rows)` to both |
| `ImageFolder.ImageFolderNode.constructor` | mindspore/ccsrc/minddata/dataset/engine/ir/datasetops/source/image_folder_node.cc:32-42 | each argument lands in its own field; the memo starts unset |
| `ImageFolder.ImageFolderNode.Copy` | mindspore/ccsrc/minddata/dataset/engine/ir/datasetops/source/image_folder_node.cc:44-49 | a fresh node with `CopyConfig` of this configuration, the current run-time defaults and an unset memo |
| `ImageFolder.ImageFolderNode.Build` | mindspore/ccsrc/minddata/dataset/engine/ir/datasetops/source/image_folder_node.cc:64-79 | returns the status of `Lowered` and extends the caller's vector by exactly `Lowered`'s operators, keeping the old entries |
| `ImageFolder.ImageFolderNode.GetDatasetSize` | mindspore/ccsrc/minddata/dataset/engine/ir/datasetops/source/image_folder_node.cc:89-101 | returns the status of `SizeQuery`, writes its output through the out-parameter and stores its memo in `dataset_size_` |
| `ImageFolderProperties.CopyReportsSameShard` | mindspore/ccsrc/minddata/dataset/engine/ir/datasetops/source/image_folder_node.cc:44-49 | when a sampler copy keeps the shard id, a copied node reports its original's shard id |
| `ImageFolderProperties.CopyValidatesAlike` | mindspore/ccsrc/minddata/dataset/engine/ir/datasetops/source/image_folder_node.cc:44-62 | when neither the base check (run on each node's own run-time parameters: the original's, and the defaults for the copy) nor the sampler check can tell the copy from its original, the copy validates exactly as the original |
| `ImageFolderProperties.ValidateParamsStopsAtFirstFailure` | mindspore/ccsrc/minddata/dataset/engine/ir/datasetops/source/image_folder_node.cc:56-59 | once a check fails, the later checks have no influence on the result |
| `ImageFolderProperties.ValidationFailsClosed` | mindspore/ccsrc/minddata/dataset/engine/ir/datasetops/source/image_folder_node.cc:57-59 | with validators that refuse an empty path and a null sampler, such a node never validates |
| `ImageFolderProperties.ValidatedNodeHasSampler` | mindspore/ccsrc/minddata/dataset/engine/ir/datasetops/source/image_folder_node.cc:55-100 | a node that validated under such validators has a sampler, so `Build` and `GetDatasetSize` can be called on it |
| `ImageFolderProperties.BuildPassesNodeState` | mindspore/ccsrc/minddata/dataset/engine/ir/datasetops/source/image_folder_node.cc:75-77 | the appended `ImageFolderOp` carries num_workers, rows_per_buffer, dir, queue size, recursive, decode, extensions, class indexing, the two-column schema and the sampler's `Build()` |
| `ImageFolderProperties.BuildCacheInsertion` | mindspore/ccsrc/minddata/dataset/engine/ir/datasetops/source/image_folder_node.cc:73-77 | with a well-behaved cache injector, success appends [cache op, source op] with a cache and [source op] without one; failure appends nothing |
| `ImageFolderProperties.BuildAddsOneSourceOp` | mindspore/ccsrc/minddata/dataset/engine/ir/datasetops/source/image_folder_node.cc:73-78 | with a well-behaved cache injector, a successful `Build` adds exactly one source operator to any vector, and a failed one adds none |
| `ImageFolderProperties.ShardIdDependsOnlyOnSampler` | mindspore/ccsrc/minddata/dataset/engine/ir/datasetops/source/image_folder_node.cc:82-86 | nodes with the same sampler report the same shard id |
| `ImageFolderProperties.EstimateIsIgnored` | mindspore/ccsrc/minddata/dataset/engine/ir/datasetops/source/image_folder_node.cc:89-100 | `estimate` never changes the result, the output or the memo |
| `ImageFolderProperties.MemoHitIgnoresCounter` | mindspore/ccsrc/minddata/dataset/engine/ir/datasetops/source/image_folder_node.cc:91-94 | with a positive memo the row counter has no influence on the call |
| `ImageFolderProperties.SizeCalls` | mindspore/ccsrc/minddata/dataset/engine/ir/datasetops/source/image_folder_node.cc:89-101 | models successive calls on one node, threading the memo; one step per call |
| `ImageFolderProperties.MemoAnswersForever` | mindspore/ccsrc/minddata/dataset/engine/ir/datasetops/source/image_folder_node.cc:91-94 | from a positive memo every later call returns it, OK, and leaves it unchanged |
| `ImageFolderProperties.PositiveSizeIsSticky` | mindspore/ccsrc/minddata/dataset/engine/ir/datasetops/source/image_folder_node.cc:91-100 | once a call succeeds with a positive size, every later call returns that size, whatever the directory then holds |
| `ImageFolderProperties.ZeroSizeIsRecounted` | mindspore/ccsrc/minddata/dataset/engine/ir/datasetops/source/image_folder_node.cc:91-100 | after a call that computed size 0, the next call counts the directory again |
| `ImageFolderProperties.SizeFollowsRowCount` | mindspore/ccsrc/minddata/dataset/engine/ir/datasetops/source/image_folder_node.cc:95-97 | under the sample-count contract, an empty directory has size 0 and more rows never give a smaller size |

## Left out

- `ImageFolderNode::Print` (mindspore/ccsrc/minddata/dataset/engine/ir/datasetops/source/image_folder_node.cc:51-53): stream output, which is I/O.
- The `size_getter` parameter of `GetDatasetSize`: this code never uses it, so the model drops it.
- What the collaborators do inside: the directory walk of `CountRowsAndClasses`, the sampling
  strategies, the cache service, `DataSchema::AddColumn`'s rule and the base-class checks.
  They are oracles, and the lemmas state the contracts they are assumed to keep.
- The physical `ImageFolderOp` (worker pools, bounded queues, decoding). It is concurrency and
  execution; the model records only the parameters it is built with.
- The meaning of `num_workers_`, `rows_per_buffer_` and `connector_que_size_`: opaque integers
  passed through. The base-class constructor that sets them is not part of this model.
- Ownership and aliasing of samplers and caches: samplers and cache descriptors are values. So
  "the copy's sampler is a distinct object" is captured only as "it is the result of `SamplerObj::Copy`".
  Shared ownership of the cache descriptor becomes equality of handles.
- Null out-pointers: `node_ops` (OpVector), `*shard_id` (a returned pair) and `*dataset_size` (Int64Cell)
  are always present in the model, because the code dereferences all three without a check.
- The tree walk of a pipeline compiler, and other node kinds: they are not in this source file.
- The TensorFlow assert parser, the fp16 Winograd transform declarations and the fp32 concat
  kernel declaration in this repository: they hold no node logic.
