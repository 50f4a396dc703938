# komputation core, modelled in Dafny

This project models the sequential, stateful core of komputation, a Kotlin neural-network
library that runs on the CPU and on CUDA devices. Layer arithmetic and kernels are left
uninterpreted. The modelled parts are:

- **CPU network** (`network.dfy`, module `Network`). This covers the forward and backward
  propagators, the network's list of optimizables, and its acquire/release lifecycle.
  - Components are classes whose arithmetic is an uninterpreted kernel.
  - Every call appends an event to a shared ghost trace.
  - The propagators are proved against predicates over that trace (`ForwardCalls`,
    `BackwardCalls`). These predicates state call order and how arguments are threaded.
- **Device input cache** (`input_memory.dfy`, module `Memory`). These are the three maps of
  `InputMemory`, with their getters and setters. `free` is a loop over the map values.
  - The pointers it frees are counted as a multiset (`ValueBag`).
- **CUDA entry point** (`cuda_input_layer.dfy`, module `CudaInput`). This covers the
  cache-or-build forward pass, acquire-time sizing and release.
  - `Devices.Gpu` stands for the device. It hands out fresh pointer handles and records
    uploads, integer arrays, allocations, frees, kernel destructions and launches.
- **cuBLAS projection composite** (`cublas_projection.dfy`, module `CublasProjection`). This is
  the weighting layer followed by an optional bias layer.
  - The two sub-layers log their calls.
  - The composite's contracts state call order, which pointers are passed along, and which
    fields are recorded in each branch.
- **Expansion layer** (`expansion.dfy`, module `Expansion`). This covers the derived shape
  constants, the backward launch geometry, acquire-time buffer sizing, and the launches and
  frees.
- **Activation dispatch** (`activation.dfy`, module `Activation`).
- **Layer builders** (`instructions.dfy`, `projection_builders.dfy` and `dense.dfy`; modules
  `Instructions`, `Weighting`, `Bias`, `Projection` and `Dense`).
  - Each instruction is a datatype.
  - `buildForCpu`/`buildForCuda` are functions that return the arguments the built layer is
    constructed with.
  - The Kotlin overloads become functions with Dafny default parameters.

Kotlin's `!!` on null, integer division by zero and `NotImplementedError` are modelled as
`Result`/`Outcome` failures carrying a `KotlinError`. Kotlin `/` is truncating division
(`Kotlin.TruncDiv`).

## Model

All source paths below are under `src/main/kotlin/shape/komputation/`.

| member | source | states |
|---|---|---|
| `Network.CpuForwardPropagator.Forward` | src/main/kotlin/shape/komputation/cpu/Network.kt:19-35 | The entry point's forward runs first, then every layer exactly once in index order. Layer i gets the previous component's output columns and result; `withinBatch` and `isTraining` pass through unchanged. The result is the last layer's forward result, or the entry point's when there are no layers. |
| `Network.CpuBackwardPropagator.Backward` | src/main/kotlin/shape/komputation/cpu/Network.kt:45-61 | Layers are visited from n-1 down to 0. Each gets the previous result, and the last layer gets the loss gradient. The entry point's backward is called last, exactly once, and its result is returned; with no layers it gets the loss gradient. |
| `Network.Components` | src/main/kotlin/shape/komputation/cpu/Network.kt:73 | `listOf(entryPoint).plus(layers)`: the entry point first, then layer i at position i+1. |
| `Network.KeepOptimizableMembers` | src/main/kotlin/shape/komputation/cpu/Network.kt:73 | The filter keeps exactly the optimizable components. |
| `Network.KeepOptimizableAppend` | src/main/kotlin/shape/komputation/cpu/Network.kt:73 | The filter distributes over concatenation, so relative order is kept. |
| `Network.ReversedAt` | src/main/kotlin/shape/komputation/cpu/Network.kt:73 | `reversed()` keeps the length and puts element k at position \|s\|-1-k. |
| `Network.ReversedAppend` | src/main/kotlin/shape/komputation/cpu/Network.kt:73 | Reversing a concatenation concatenates the reversals in swapped order. |
| `Network.KeepOptimizableReversed` | src/main/kotlin/shape/komputation/cpu/Network.kt:73 | Filtering and reversing commute. |
| `Network.OptimizablesSpec` | src/main/kotlin/shape/komputation/cpu/Network.kt:73 | `optimizables` holds exactly the optimizable components. It equals the reversed chain with the non-optimizable components dropped. |
| `Network.OptimizablesEndWithEntry` | src/main/kotlin/shape/komputation/cpu/Network.kt:73 | An optimizable entry point is the last optimizable. |
| `Network.OptimizablesStartWithLastLayer` | src/main/kotlin/shape/komputation/cpu/Network.kt:73 | An optimizable last layer is the first optimizable. |
| `Network.LayerAcquisitions` | src/main/kotlin/shape/komputation/cpu/Network.kt:117-121 | One acquisition per layer, in layer order, each with the maximum batch size. |
| `Network.LayerReleases` | src/main/kotlin/shape/komputation/cpu/Network.kt:127-131 | One release per layer, in layer order. |
| `Network.Network.constructor` | src/main/kotlin/shape/komputation/cpu/Network.kt:66-123 | Construction acquires the entry point, then every layer in order, each with `maximumBatchSize`. `optimizables` is `Optimizables(entryPoint, layers)`, and both propagators get the same entry point and layers. |
| `Network.Network.Free` | src/main/kotlin/shape/komputation/cpu/Network.kt:125-139 | Frees every layer in order, then the entry point only when it is `Resourceful`. |
| `Memory.InputMemory.constructor` | src/main/kotlin/shape/komputation/cuda/memory/InputMemory.kt:6-10 | All three maps start empty. |
| `Memory.InputMemory.TryToGetData` | src/main/kotlin/shape/komputation/cuda/memory/InputMemory.kt:12-14 | Present exactly when the id is stored, and then it is the stored pointer; otherwise null. |
| `Memory.InputMemory.GetDeviceData` | src/main/kotlin/shape/komputation/cuda/memory/InputMemory.kt:16-18 | The stored pointer, or a `NullPointerException` exactly when the id is missing. |
| `Memory.InputMemory.GetDeviceNumbersOfColumns` | src/main/kotlin/shape/komputation/cuda/memory/InputMemory.kt:20-22 | The stored column-count pointer, or a `NullPointerException` exactly when the id is missing. |
| `Memory.InputMemory.GetTotalNumbersOfColumns` | src/main/kotlin/shape/komputation/cuda/memory/InputMemory.kt:24-26 | The stored total, or a `NullPointerException` exactly when the id is missing. |
| `Memory.InputMemory.SetData` | src/main/kotlin/shape/komputation/cuda/memory/InputMemory.kt:28-32 | Only `deviceData` changes, and only at `id`. A lookup of `id` now returns the new pointer, and every other lookup is unchanged. |
| `Memory.InputMemory.SetColumnLengths` | src/main/kotlin/shape/komputation/cuda/memory/InputMemory.kt:34-38 | Only `deviceColumnLengths` changes, and only at `id`. |
| `Memory.InputMemory.SetTotalNumberOfColumns` | src/main/kotlin/shape/komputation/cuda/memory/InputMemory.kt:40-44 | Only `totalNumbersOfColumns` changes, and only at `id`. |
| `Memory.InputMemory.Free` | src/main/kotlin/shape/komputation/cuda/memory/InputMemory.kt:46-62 | Frees exactly the values of `deviceData` and `deviceColumnLengths`, each entry once; the totals are not freed. Afterwards all three maps are empty, and nothing else on the device changes. |
| `Memory.FreeValues` | src/main/kotlin/shape/komputation/cuda/memory/InputMemory.kt:50-54 | The loop over `map.values` frees exactly the multiset of the map's values. |
| `Memory.FreeTwice` | src/main/kotlin/shape/komputation/cuda/memory/InputMemory.kt:58-60 | A second `free` frees nothing more. |
| `Memory.BagOfRemove` | src/main/kotlin/shape/komputation/cuda/memory/InputMemory.kt:50 | Each key contributes its value once, whichever key is visited first, so hash-map iteration order does not matter. |
| `Memory.BagOfShape` | src/main/kotlin/shape/komputation/cuda/memory/InputMemory.kt:50 | The freed bag has one pointer per key, and it holds exactly the values stored under those keys. |
| `Memory.ValueBagShape` | src/main/kotlin/shape/komputation/cuda/memory/InputMemory.kt:48-56 | Per map, `free` frees as many pointers as the map has entries, and those pointers are exactly its values. |
| `CudaInput.CudaInputLayer.constructor` | src/main/kotlin/shape/komputation/cuda/layers/entry/CudaInputLayer.kt:14-27 | Output rows and columns are the arguments, and `numberEntries` is rows times columns. The two device pointers are new. The buffers are empty, and `numberBatchEntries` is -1. |
| `CudaInput.CudaInputLayer.Acquire` | src/main/kotlin/shape/komputation/cuda/layers/entry/CudaInputLayer.kt:29-37 | `concatenation` is m·entries zeros and `batchInputs` is m empty slots. `numberBatchEntries` is m·entries. The device column-count array holds m copies of `maximumOutputColumns`. |
| `CudaInput.CudaInputLayer.ColumnCounts` | src/main/kotlin/shape/komputation/cuda/layers/entry/CudaInputLayer.kt:35 | m entries, each `maximumOutputColumns`. |
| `CudaInput.CudaInputLayer.Release` | src/main/kotlin/shape/komputation/cuda/layers/entry/CudaInputLayer.kt:39-46 | `concatenation` becomes empty and `numberBatchEntries` becomes -1. The column-count pointer is freed once. |
| `CudaInput.CudaInputLayer.Forward` | src/main/kotlin/shape/komputation/cuda/layers/entry/CudaInputLayer.kt:48-90 | On a hit: the stored pointer is returned, with no gather, no upload and no change to memory. On a miss: for each position k, slot k gets `inputs[batch[k]].entries`, and slots past the batch are untouched. The concatenation is rebuilt, then uploaded exactly once, with `numberBatchEntries` entries, under a fresh pointer. That pointer is stored under `batchId` and returned. Either way `deviceForwardResult` is the result. |
| `CudaInput.CudaInputLayer.Backward` | src/main/kotlin/shape/komputation/cuda/layers/entry/CudaInputLayer.kt:92-94 | The identity on the chain. |
| `CudaInput.ForwardTwice` | src/main/kotlin/shape/komputation/cuda/layers/entry/CudaInputLayer.kt:63-88 | A second forward with the same batch id returns the same pointer, which is stored under that id. There is at most one upload in all, and none when the first call was already a hit. |
| `CublasProjection.CublasProjectionLayer.constructor` | src/main/kotlin/shape/komputation/cuda/layers/forward/projection/CublasProjectionLayer.kt:7-18 | Before any forward pass the recorded row and column fields are all -1, and both result pointers are new. |
| `CublasProjection.CublasProjectionLayer.Forward` | src/main/kotlin/shape/komputation/cuda/layers/forward/projection/CublasProjectionLayer.kt:20-45 | Weighting forward comes first, with the given arguments. Without a bias: returns the weighted result and copies the weighting's forward result, output rows and maximum output columns. With a bias: its forward runs next on the weighted result with this layer's column counts, and its result is returned. The weighting's backward result, input rows and maximum input columns are copied, and the output fields are left untouched. |
| `CublasProjection.CublasProjectionLayer.Backward` | src/main/kotlin/shape/komputation/cuda/layers/forward/projection/CublasProjectionLayer.kt:47-59 | Returns the weighting's backward of the chain. When there is a bias, its backward is called next on the same original chain, and its result is dropped. |
| `CublasProjection.CublasProjectionLayer.Optimize` | src/main/kotlin/shape/komputation/cuda/layers/forward/projection/CublasProjectionLayer.kt:61-67 | Optimizes the weighting, then the bias with the same factor; the bias call is skipped when there is no bias. |
| `Expansion.ShapeOf` | src/main/kotlin/shape/komputation/cuda/layers/forward/expansion/CudaExpansionLayer.kt:26-69 | Output rows are filterHeight·filterWidth. Maximum output columns are row positions times column positions, and the column positions come from the filter height. Input entries are rows·maximum columns, and result entries are output columns·output rows. The forward grid is output columns by output rows. Warps per block are the thread limit divided by the warp size. A zero warp size throws `ArithmeticException`. |
| `Expansion.ForwardGridCoversResult` | src/main/kotlin/shape/komputation/cuda/layers/forward/expansion/CudaExpansionLayer.kt:49-66 | Per sample, the forward grid has exactly one thread per result entry, which is filterHeight·filterWidth·convolutions. The column positions do not depend on the filter width. |
| `Expansion.BackwardLaunchConfiguration` | src/main/kotlin/shape/komputation/cuda/layers/forward/expansion/CudaExpansionLayer.kt:98-115 | One block when the entries fit in one block's warps. Threads per block are min(entries, maxWarps)·warpSize, with one iteration. It throws `ArithmeticException` exactly when the ceiling divides by zero. |
| `Expansion.BackwardBlocksCoverEntries` | src/main/kotlin/shape/komputation/cuda/layers/forward/expansion/CudaExpansionLayer.kt:100-104 | With maxWarps > 0 the block count is the ceiling: at least 1, blocks·maxWarps ≥ entries, and one block fewer would not cover them. |
| `Expansion.BackwardThreadsWithinLimit` | src/main/kotlin/shape/komputation/cuda/layers/forward/expansion/CudaExpansionLayer.kt:68-111 | With maxWarps = maximumNumberThreads / warpSize (line 68), a backward block never has more than `maximumNumberThreads` threads, nor fewer than zero. |
| `Expansion.CudaExpansionLayer.constructor` | src/main/kotlin/shape/komputation/cuda/layers/forward/expansion/CudaExpansionLayer.kt:15-71 | The shape is `ShapeOf` of the arguments. There are no kernels yet. Batch size, maximum batch size and backward grid are -1, and the result and length pointers are new. |
| `Expansion.CudaExpansionLayer.Acquire` | src/main/kotlin/shape/komputation/cuda/layers/forward/expansion/CudaExpansionLayer.kt:73-96 | Records m and creates both kernels. Uploads m copies of `maximumInputColumns` as the lengths, which the fixed-length kernels are then given. The forward buffer is sized to m·result entries and the backward buffer to m·input entries. The backward grid comes from `BackwardLaunchConfiguration`, whose failure is rethrown after all of the above. |
| `Expansion.CudaExpansionLayer.Release` | src/main/kotlin/shape/komputation/cuda/layers/forward/expansion/CudaExpansionLayer.kt:117-127 | Frees the lengths, then destroys the forward kernel and frees its buffer, then does the same for the backward kernel. A missing kernel throws `NullPointerException` at its `!!`, after the steps before it. |
| `Expansion.CudaExpansionLayer.ForwardLaunch` | src/main/kotlin/shape/komputation/cuda/layers/forward/expansion/CudaExpansionLayer.kt:133-151 | The forward launch reads the stored batch size and writes the forward buffer. It has one block per sample of the largest batch, and per sample one thread for each result entry, one per output row. The whole grid therefore has exactly as many threads as `Acquire` allocates forward result entries, and no shared memory is used. |
| `Expansion.CudaExpansionLayer.Forward` | src/main/kotlin/shape/komputation/cuda/layers/forward/expansion/CudaExpansionLayer.kt:129-155 | Stores the batch size in `batchSize[0]` and launches with the maximum lengths. Returns the forward buffer, or throws `NullPointerException` without launching when there is no kernel. |
| `Expansion.CudaExpansionLayer.ForwardWithLengths` | src/main/kotlin/shape/komputation/cuda/layers/forward/expansion/CudaExpansionLayer.kt:157-183 | The same as `Forward`, with the caller's lengths pointer. |
| `Expansion.CudaExpansionLayer.Backward` | src/main/kotlin/shape/komputation/cuda/layers/forward/expansion/CudaExpansionLayer.kt:185-210 | Launches on the recorded backward grid with the batch size the last forward stored, not the argument. Returns the backward buffer, or throws `NullPointerException` when there is no kernel. |
| `Expansion.ReleaseBeforeAcquire` | src/main/kotlin/shape/komputation/cuda/layers/forward/expansion/CudaExpansionLayer.kt:117-127 | Releasing without an acquire throws `NullPointerException`, having freed only the lengths. |
| `Expansion.AcquireThenRelease` | src/main/kotlin/shape/komputation/cuda/layers/forward/expansion/CudaExpansionLayer.kt:73-127 | After an acquire, even one whose grid computation threw, release succeeds. It frees the lengths and both buffers and destroys both kernels. |
| `Activation.CudaActivationLayer` | src/main/kotlin/shape/komputation/cuda/layers/forward/activation/CudaActivationLayer.kt:7-22 | Each supported function maps to its layer, built with the name; the identity takes no dimension and the others take the given one. Any other variant throws `NotImplementedError`. |
| `Activation.CudaActivationLayerInstruction.Function` | src/main/kotlin/shape/komputation/cuda/layers/forward/activation/CudaActivationLayer.kt:11-18 | The inverse of the dispatch: every layer kind applies a supported function. |
| `Activation.CudaActivationLayerInstruction.Dimension` | src/main/kotlin/shape/komputation/cuda/layers/forward/activation/CudaActivationLayer.kt:11-18 | Only the identity layer is built without a dimension. |
| `Activation.DispatchRoundTrip` | src/main/kotlin/shape/komputation/cuda/layers/forward/activation/CudaActivationLayer.kt:9-22 | Every layer is what the dispatch returns for its own name, function and dimension. |
| `Activation.DispatchInjective` | src/main/kotlin/shape/komputation/cuda/layers/forward/activation/CudaActivationLayer.kt:9-22 | Two successful dispatches agree only if name and function agree, and so does the dimension except for the identity. |
| `Instructions.CpuUpdateRuleFor` | src/main/kotlin/shape/komputation/layers/forward/projection/WeightingLayer.kt:37 | A CPU rule over (rows, columns) exists exactly when an optimization is given. |
| `Instructions.CudaUpdateRuleFor` | src/main/kotlin/shape/komputation/layers/forward/projection/WeightingLayer.kt:48 | A CUDA rule over (parameters, rows, columns) exists exactly when an optimization is given. |
| `Instructions.MinimumInputColumns` | src/main/kotlin/shape/komputation/layers/forward/projection/WeightingLayer.kt:24 | The column count when the length is fixed, otherwise 1. It is shared by the weighting, bias and projection instructions. |
| `Instructions.ColumnRangeNonEmpty` | src/main/kotlin/shape/komputation/layers/forward/projection/ProjectionLayer.kt:31-32 | With at least one column, minimum ≤ maximum. They are equal exactly when the length is fixed or there is one column. |
| `Weighting.WeightingLayer.BuildForCpu` | src/main/kotlin/shape/komputation/layers/forward/projection/WeightingLayer.kt:24-41 | The name is `<name>.weighting`. Weights are outputRows × inputRows over rows·max-columns entries, and the accumulator has the same number of entries as the weight matrix. Minimum columns are the column count if the length is fixed, else 1; the maximum is the column count. The update rule over the weight matrix exists exactly when an optimization is given. |
| `Weighting.WeightingLayer.BuildForCuda` | src/main/kotlin/shape/komputation/layers/forward/projection/WeightingLayer.kt:43-52 | The same name and weights, and the dimensions. The CUDA rule is invoked with (1, outputRows, inputRows) exactly when an optimization is given. |
| `Weighting.BuildsAgree` | src/main/kotlin/shape/komputation/layers/forward/projection/WeightingLayer.kt:32-52 | The CPU and cuBLAS builds agree on name, weights, dimensions and update-rule matrix. |
| `Weighting.UnnamedWeightingLayer` | src/main/kotlin/shape/komputation/layers/forward/projection/WeightingLayer.kt:80-95 | Passes every argument through, with a null name. |
| `Weighting.VectorWeightingLayer` | src/main/kotlin/shape/komputation/layers/forward/projection/WeightingLayer.kt:64-78 | One column, fixed length. |
| `Weighting.UnnamedVectorWeightingLayer` | src/main/kotlin/shape/komputation/layers/forward/projection/WeightingLayer.kt:56-62 | The vector overload with a null name. |
| `Weighting.VectorWeightingShape` | src/main/kotlin/shape/komputation/layers/forward/projection/WeightingLayer.kt:64-78 | A vector weighting accepts exactly one column, spans inputDimension entries and accumulates output·input entries. |
| `Bias.BiasLayer.BuildForCpu` | src/main/kotlin/shape/komputation/layers/forward/projection/BiasLayer.kt:23-36 | The name is unchanged. The bias has numberInputRows entries and the accumulator is its size. The column range is as for the other instructions. The CPU rule over (rows, 1) exists exactly when an optimization is given. |
| `Bias.BiasLayer.BuildForCuda` | src/main/kotlin/shape/komputation/layers/forward/projection/BiasLayer.kt:38-56 | The same bias and name. The CUDA rule is invoked with (1, rows, 1) exactly when an optimization is given. The context's warp size and thread limit are passed on. |
| `Bias.UnnamedBiasLayer` | src/main/kotlin/shape/komputation/layers/forward/projection/BiasLayer.kt:60-67 | Passes every argument through, with a null name. |
| `Projection.ProjectionLayer.BuildForCpu` | src/main/kotlin/shape/komputation/layers/forward/projection/ProjectionLayer.kt:31-67 | The weighting is `<name>.weighting`, with an outputRows × inputRows matrix and an accumulator of that size. A bias sub-layer exists exactly when a bias initialisation is given. The bias is `<name>.bias`, with outputRows entries and accumulator size, and the same column range as the weighting. Each update rule exists exactly when an optimization is given. |
| `Projection.ProjectionLayer.BuildForCuda` | src/main/kotlin/shape/komputation/layers/forward/projection/ProjectionLayer.kt:69-106 | The weighting is `<name>.weighting` over outputRows. The bias exists exactly when a bias initialisation is given. It is `<name>.bias` over outputRows entries, with the thread limit and the CUDA rule (1, outputRows, 1). |
| `Projection.ProjectionLayer.WeightingPart` | src/main/kotlin/shape/komputation/layers/forward/projection/ProjectionLayer.kt:41-46 | The weighting instruction under the projection's own name, with its input rows, input columns, fixed-length flag, output rows, weight initialisation and optimization. |
| `Projection.ProjectionLayer.BiasPart` | src/main/kotlin/shape/komputation/layers/forward/projection/ProjectionLayer.kt:48-63 | A bias instruction `<name>.bias` over the output rows, exactly when a bias initialisation is given. |
| `Projection.CpuBuildComposesSubLayers` | src/main/kotlin/shape/komputation/layers/forward/projection/ProjectionLayer.kt:39-67 | On the CPU the projection's weighting and bias are exactly what the weighting instruction and the bias instruction with the same arguments build. |
| `Projection.CudaBuildComposesSubLayers` | src/main/kotlin/shape/komputation/layers/forward/projection/ProjectionLayer.kt:69-106 | With cuBLAS the weighting is the weighting instruction's own build. The bias agrees with the bias instruction's on name, rows, maximum columns, vector, update rule and thread limit. |
| `Projection.UnnamedProjectionLayer` | src/main/kotlin/shape/komputation/layers/forward/projection/ProjectionLayer.kt:139-156 | Passes every argument through, with a null name. |
| `Projection.VectorProjectionLayer` | src/main/kotlin/shape/komputation/layers/forward/projection/ProjectionLayer.kt:121-137 | One column, fixed length. |
| `Projection.UnnamedVectorProjectionLayer` | src/main/kotlin/shape/komputation/layers/forward/projection/ProjectionLayer.kt:112-119 | The vector overload with a null name. |
| `Projection.VectorProjectionShape` | src/main/kotlin/shape/komputation/layers/forward/projection/ProjectionLayer.kt:121-137 | A vector projection accepts exactly one column; without a bias initialisation it has no bias. |
| `Dense.DenseLayer.ProjectionPart` | src/main/kotlin/shape/komputation/layers/forward/dense/DenseLayer.kt:28-39 | The projection is `<name>.projection` with the dense layer's dimensions and output rows. It has a fixed length, and a bias initialisation is always supplied. |
| `Dense.DenseLayer.BuildForCpu` | src/main/kotlin/shape/komputation/layers/forward/dense/DenseLayer.kt:29-49 | The projection's CPU build, then a CPU activation `<name>.activation` over outputRows × 1. |
| `Dense.DenseLayer.BuildForCuda` | src/main/kotlin/shape/komputation/layers/forward/dense/DenseLayer.kt:29-59 | The projection's cuBLAS build, then the CUDA activation `<name>.activation` with dimension outputRows. It fails with `NotImplementedError` exactly when the activation is unsupported. |
| `Dense.CpuProjectionAlwaysBiased` | src/main/kotlin/shape/komputation/layers/forward/dense/DenseLayer.kt:31-49 | A dense layer's CPU projection always has a bias `<name>.projection.bias` over the output rows. Both sub-layers accept exactly `numberInputColumns` columns. |
| `Dense.CudaProjectionAlwaysBiased` | src/main/kotlin/shape/komputation/layers/forward/dense/DenseLayer.kt:31-59 | The cuBLAS projection always has a bias over the output rows. |
| `Dense.UnnamedDenseLayer` | src/main/kotlin/shape/komputation/layers/forward/dense/DenseLayer.kt:102-119 | Passes every argument through, with a null name. |
| `Dense.VectorDenseLayer` | src/main/kotlin/shape/komputation/layers/forward/dense/DenseLayer.kt:83-100 | `numberInputColumns` defaults to 1. |
| `Dense.UnnamedVectorDenseLayer` | src/main/kotlin/shape/komputation/layers/forward/dense/DenseLayer.kt:64-81 | `numberInputColumns` defaults to 1 and the name is null. |
| `Kotlin.TruncDiv` | src/main/kotlin/shape/komputation/cuda/layers/forward/expansion/CudaExpansionLayer.kt:68 | Kotlin `Int` division. It agrees with floor division for a non-negative dividend and positive divisor, and is non-negative when the signs agree. |

## Left out

- **Kernels and cuBLAS.** Kernel bodies, cuBLAS calls and every floating-point computation are
  left out. A layer's arithmetic is an uninterpreted function. The device is a log of
  uploads, allocations, frees, destructions and launches; the memory contents are not modelled.
- **Stream ordering.** Asynchronous stream ordering is not modelled; effects happen in
  program order.
- **Unseen helpers.** Their bodies are not part of this model:
  - `sparselyConcatenateFloatMatrixEntries` is a parameter of the input layer. Its result
    replaces `concatenation` instead of being written into the array in place.
  - `computeNumberFilterRowPositions` and `computeNumberFilterColumnPositions` are parameters.
  - `concatenateNames` is kept symbolic (`Names.Concatenated`).
  - `initializeWeights` and `initializeColumnVector` are kept symbolic. A column vector's
    size is taken to be the row count it was asked for.
  - `cpuActivationLayer` is kept symbolic.
- **Components built from instructions.** The entry point and the layers of `Network` are
  given as already-built components.
  - `acquireRecursively` and `releaseRecursively` are single calls on a component; they do
    not recurse into sub-components.
  - `training` and `test` only construct a trainer or tester, and are left out.
- **Base classes.** The CUDA base classes are not part of this model. The projection layer's
  `deviceNumberOutputColumns` comes from one of them and is taken as a constructor argument.
- **Handles and contexts.** The cuBLAS handle, the CUDA context beyond its warp size and thread
  limit, and the kernel factories passed to `CublasBiasLayer` are left out.
- **`CublasBiasLayer` argument order.** `ProjectionLayer.buildForCuda` passes the arguments in a
  different order and number than `BiasLayer.buildForCuda` does. Both orders are modelled as
  written (`Projection.CublasBiasArguments` and `Bias.CublasBiasLayer`). Only the shared fields
  are proved to agree.
- **Casts.** `inputs[id] as FloatMatrix` (the input layer's gather) would throw
  `ClassCastException` for any other kind of `Matrix`. That exception is not modelled, because
  `Matrices.Matrix` has only the `FloatMatrix` variant.
- **Kernel creation.** `createForwardKernel` and `createBackwardKernel` are pure `() -> Kernel`
  values. So every acquire yields the same kernel, and the two kernels may even be the same value.
  The source's factories create a new kernel on each call.
- **Pointer handles.** `Pointer.to(...)` wrappers are identified with the pointer they wrap.
- **Kotlin `Int`.** Values are unbounded integers; 32-bit wrap-around of products such as
  `maximumBatchSize * numberEntries` is not modelled.
- **Negative sizes.** Batch sizes and the input layer's dimensions are `nat`. A negative array
  size would throw `NegativeArraySizeException` in the source. `CudaInput.CudaInputLayer.Forward`
  requires, on a cache miss only, that the batch fits the acquired size and names existing
  samples. The source would throw an index exception there.
- **Warp size.** `Expansion.CudaExpansionLayer.constructor` requires a non-zero warp size. The
  source's constructor would throw `ArithmeticException`, which `Expansion.ShapeOf` models.
