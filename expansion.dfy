/**
 * The CUDA expansion layer (the im2col step of a convolution): its derived shape constants,
 * the backward launch geometry, and the device resources it sizes, launches and frees.
 * The two kernels are opaque; a launch is recorded with the arguments that vary.
 */
module Expansion {
  import opened Wrappers
  import opened Kotlin
  import opened Devices
  import opened Names

  /** A grid: blocks, threads per block, iterations per thread. */
  datatype KernelLaunchConfiguration =
    KernelLaunchConfiguration(numberBlocks: int, numberThreadsPerBlock: int, numberIterations: int)

  /** The constants the layer derives from its constructor arguments. */
  datatype ExpansionShape = ExpansionShape(
    filterSize: int,
    numberOutputRows: int,
    numberFilterRowPositions: int,
    numberFilterColumnPositions: int,
    maximumConvolutions: int,
    maximumOutputColumns: int,
    numberInputEntries: int,
    numberResultEntries: int,
    numberForwardBlocksInYDimension: int,
    numberForwardThreads: int,
    maximumNumberWarpsPerBlock: int)

  /**
   * The relations among the constants that hold whatever the constructor arguments: one output
   * row per filter entry, one output column per convolution, and a forward grid of one block per
   * output column and one thread per output row.
   */
  ghost predicate Derived(s: ExpansionShape) {
    && s.numberOutputRows == s.filterSize
    && s.maximumOutputColumns == s.maximumConvolutions
    && s.numberResultEntries == s.maximumOutputColumns * s.numberOutputRows
    && s.numberForwardBlocksInYDimension == s.maximumOutputColumns
    && s.numberForwardThreads == s.numberOutputRows
  }

  function Min(a: int, b: int): (m: int)
    ensures m <= a && m <= b && (m == a || m == b)
  {
    if a < b then a else b
  }

  /**
   * The field initialisers. `rowPositions` and `columnPositions` stand for
   * `computeNumberFilterRowPositions` and `computeNumberFilterColumnPositions`, whose bodies are
   * not part of this model. The column positions are computed from the filter height, as in the
   * source. Dividing the thread limit by a zero warp size throws.
   */
  function ShapeOf(numberInputRows: int, maximumInputColumns: int, filterHeight: int, filterWidth: int,
                   warpSize: int, maximumNumberThreads: int,
                   rowPositions: (int, int) -> int, columnPositions: (int, int) -> int)
    : (r: Result<ExpansionShape, KotlinError>)
    ensures r.Failure? <==> warpSize == 0
    ensures r.Failure? ==> r.error == ArithmeticException
    ensures r.Success? ==>
      var s := r.value;
      && s.filterSize == filterHeight * filterWidth && s.numberOutputRows == s.filterSize
      && s.numberFilterRowPositions == rowPositions(numberInputRows, filterHeight)
      && s.numberFilterColumnPositions == columnPositions(maximumInputColumns, filterHeight)
      && s.maximumOutputColumns == s.maximumConvolutions
      && s.maximumConvolutions == s.numberFilterRowPositions * s.numberFilterColumnPositions
      && s.numberInputEntries == numberInputRows * maximumInputColumns
      && s.numberResultEntries == s.maximumOutputColumns * s.numberOutputRows
      && s.numberForwardBlocksInYDimension == s.maximumOutputColumns
      && s.numberForwardThreads == s.numberOutputRows
      && s.maximumNumberWarpsPerBlock == TruncDiv(maximumNumberThreads, warpSize)
    ensures r.Success? ==> Derived(r.value)
  {
    if warpSize == 0 then Failure(ArithmeticException)
    else
      var filterSize := filterHeight * filterWidth;
      var numberFilterRowPositions := rowPositions(numberInputRows, filterHeight);
      var numberFilterColumnPositions := columnPositions(maximumInputColumns, filterHeight);
      var maximumConvolutions := numberFilterRowPositions * numberFilterColumnPositions;
      Success(ExpansionShape(
        filterSize,
        filterSize,
        numberFilterRowPositions,
        numberFilterColumnPositions,
        maximumConvolutions,
        maximumConvolutions,
        numberInputRows * maximumInputColumns,
        maximumConvolutions * filterSize,
        maximumConvolutions,
        filterSize,
        TruncDiv(maximumNumberThreads, warpSize)))
  }

  /**
   * Per sample, the forward grid has one thread for each result entry: one block per output
   * column, one thread per output row. The filter width does not reach the column positions.
   */
  lemma ForwardGridCoversResult(numberInputRows: int, maximumInputColumns: int, filterHeight: int,
                                filterWidth: int, otherFilterWidth: int, warpSize: int, maximumNumberThreads: int,
                                rowPositions: (int, int) -> int, columnPositions: (int, int) -> int)
    requires warpSize != 0
    ensures var s := ShapeOf(numberInputRows, maximumInputColumns, filterHeight, filterWidth,
                             warpSize, maximumNumberThreads, rowPositions, columnPositions).value;
      && s.numberForwardBlocksInYDimension * s.numberForwardThreads == s.numberResultEntries
      && s.numberResultEntries == filterHeight * filterWidth * s.maximumConvolutions
      && s.numberFilterColumnPositions ==
           ShapeOf(numberInputRows, maximumInputColumns, filterHeight, otherFilterWidth,
                   warpSize, maximumNumberThreads, rowPositions, columnPositions).value.numberFilterColumnPositions
  {
    var s := ShapeOf(numberInputRows, maximumInputColumns, filterHeight, filterWidth,
                     warpSize, maximumNumberThreads, rowPositions, columnPositions).value;
    assert s.maximumConvolutions * (filterHeight * filterWidth) == filterHeight * filterWidth * s.maximumConvolutions;
  }

  /**
   * `computeBackwardLaunchConfiguration`: a single block when the entries fit in one block's
   * warps, otherwise the ceiling of entries over warps per block; as many warps as entries, up
   * to the maximum, times the warp size threads. The ceiling divides by the maximum number of
   * warps, so it throws when that is zero and there is more than zero (or a negative number of)
   * entries beyond it.
   */
  function BackwardLaunchConfiguration(numberInputEntries: int, maximumNumberWarpsPerBlock: int, warpSize: int)
    : (r: Result<KernelLaunchConfiguration, KotlinError>)
    ensures r.Failure? <==> numberInputEntries > maximumNumberWarpsPerBlock && maximumNumberWarpsPerBlock == 0
    ensures r.Failure? ==> r.error == ArithmeticException
    ensures r.Success? ==>
      && r.value.numberIterations == 1
      && r.value.numberThreadsPerBlock == Min(numberInputEntries, maximumNumberWarpsPerBlock) * warpSize
      && (numberInputEntries <= maximumNumberWarpsPerBlock ==> r.value.numberBlocks == 1)
  {
    if numberInputEntries > maximumNumberWarpsPerBlock && maximumNumberWarpsPerBlock == 0 then
      Failure(ArithmeticException)
    else
      var numberBackwardBlocksInYDimension :=
        if numberInputEntries <= maximumNumberWarpsPerBlock then 1
        else TruncDiv(numberInputEntries + maximumNumberWarpsPerBlock - 1, maximumNumberWarpsPerBlock);
      var numberWarpsPerBlock :=
        if numberInputEntries < maximumNumberWarpsPerBlock then numberInputEntries
        else maximumNumberWarpsPerBlock;
      Success(KernelLaunchConfiguration(numberBackwardBlocksInYDimension, numberWarpsPerBlock * warpSize, 1))
  }

  /**
   * With a positive number of warps per block, the backward grid exists, has at least one
   * block, covers every entry, and does not use a block more than needed.
   */
  lemma BackwardBlocksCoverEntries(numberInputEntries: nat, maximumNumberWarpsPerBlock: int, warpSize: int)
    requires maximumNumberWarpsPerBlock > 0
    ensures var r := BackwardLaunchConfiguration(numberInputEntries, maximumNumberWarpsPerBlock, warpSize);
      && r.Success?
      && r.value.numberBlocks >= 1
      && r.value.numberBlocks * maximumNumberWarpsPerBlock >= numberInputEntries
      && (r.value.numberBlocks - 1) * maximumNumberWarpsPerBlock < numberInputEntries + (if numberInputEntries == 0 then 1 else 0)
  {
    var r := BackwardLaunchConfiguration(numberInputEntries, maximumNumberWarpsPerBlock, warpSize);
    if numberInputEntries > maximumNumberWarpsPerBlock {
      var n := numberInputEntries + maximumNumberWarpsPerBlock - 1;
      var w := maximumNumberWarpsPerBlock;
      var b := n / w;
      assert r.value.numberBlocks == b;
      assert b * w <= n < b * w + w by {
        TruncDivBounds(n, w);
      }
      NonPositiveProduct(b, w);
      assert (b - 1) * w == b * w - w;
    }
  }

  lemma NonPositiveProduct(b: int, w: int)
    requires w >= 0
    ensures b <= 0 ==> b * w <= 0
  {
    if b <= 0 {
      MultiplyMonotonic(b, 0, w);
    }
  }

  lemma MultiplyMonotonic(a: int, b: int, c: int)
    requires a <= b && c >= 0
    ensures a * c <= b * c
  {
    assert b * c - a * c == (b - a) * c;
  }

  /**
   * With `maximumNumberWarpsPerBlock` derived from the thread limit as in the layer, a backward
   * block never has more threads than the limit, and never a negative number of them.
   */
  lemma BackwardThreadsWithinLimit(numberInputEntries: nat, maximumNumberThreads: nat, warpSize: int)
    requires warpSize > 0
    ensures var r := BackwardLaunchConfiguration(numberInputEntries, TruncDiv(maximumNumberThreads, warpSize), warpSize);
      r.Success? ==> 0 <= r.value.numberThreadsPerBlock <= maximumNumberThreads
  {
    var w := TruncDiv(maximumNumberThreads, warpSize);
    TruncDivBounds(maximumNumberThreads, warpSize);
    var r := BackwardLaunchConfiguration(numberInputEntries, w, warpSize);
    if r.Success? {
      var warps := Min(numberInputEntries, w);
      MultiplyMonotonic(warps, w, warpSize);
      MultiplyMonotonic(0, warps, warpSize);
    }
  }

  class CudaExpansionLayer {
    const name: LayerName
    const numberInputRows: int
    const maximumInputColumns: int
    const filterHeight: int
    const filterWidth: int
    const createForwardKernel: () -> Kernel
    const createBackwardKernel: () -> Kernel
    const warpSize: int
    const shape: ExpansionShape

    const deviceForwardResult: Pointer
    const deviceBackwardResult: Pointer
    const deviceMaximumBatchLengths: Pointer
    /** `batchSize`, the one-element host array the kernels read the batch size from. */
    const batchSize: array<int>

    var forwardKernel: Option<Kernel>
    var backwardKernel: Option<Kernel>
    /** What the fixed-length kernels are given as the column counts. */
    var pointerToMaximumBatchLengths: Pointer
    var maximumBatchSize: int
    var numberBackwardBlocksInYDimension: int
    var numberBackwardThreads: int

    constructor (name: LayerName, numberInputRows: int, maximumInputColumns: int,
                 filterHeight: int, filterWidth: int,
                 createForwardKernel: () -> Kernel, createBackwardKernel: () -> Kernel,
                 warpSize: int, maximumNumberThreads: int,
                 rowPositions: (int, int) -> int, columnPositions: (int, int) -> int, gpu: Gpu)
      requires warpSize != 0
      modifies gpu
      ensures this.name == name && this.numberInputRows == numberInputRows
      ensures this.maximumInputColumns == maximumInputColumns
      ensures this.filterHeight == filterHeight && this.filterWidth == filterWidth
      ensures this.createForwardKernel == createForwardKernel && this.createBackwardKernel == createBackwardKernel
      ensures this.warpSize == warpSize
      ensures Success(shape) == ShapeOf(numberInputRows, maximumInputColumns, filterHeight, filterWidth,
                                        warpSize, maximumNumberThreads, rowPositions, columnPositions)
      ensures Derived(shape)
      ensures forwardKernel == None && backwardKernel == None
      ensures deviceForwardResult == Pointer(old(gpu.nextHandle))
      ensures deviceBackwardResult == Pointer(old(gpu.nextHandle) + 1)
      ensures deviceMaximumBatchLengths == Pointer(old(gpu.nextHandle) + 2)
      ensures pointerToMaximumBatchLengths == Pointer(old(gpu.nextHandle) + 3)
      ensures gpu.nextHandle == old(gpu.nextHandle) + 4
      ensures fresh(batchSize) && batchSize.Length == 1 && batchSize[0] == -1
      ensures maximumBatchSize == -1 && numberBackwardBlocksInYDimension == -1 && numberBackwardThreads == -1
    {
      this.name := name;
      this.numberInputRows := numberInputRows;
      this.maximumInputColumns := maximumInputColumns;
      this.filterHeight := filterHeight;
      this.filterWidth := filterWidth;
      this.createForwardKernel := createForwardKernel;
      this.createBackwardKernel := createBackwardKernel;
      this.warpSize := warpSize;
      shape := ShapeOf(numberInputRows, maximumInputColumns, filterHeight, filterWidth,
                       warpSize, maximumNumberThreads, rowPositions, columnPositions).value;
      var forwardResult := gpu.NewPointer();
      var backwardResult := gpu.NewPointer();
      var lengths := gpu.NewPointer();
      var lengthsHolder := gpu.NewPointer();
      deviceForwardResult := forwardResult;
      deviceBackwardResult := backwardResult;
      deviceMaximumBatchLengths := lengths;
      pointerToMaximumBatchLengths := lengthsHolder;
      batchSize := new int[1](_ => -1);
      forwardKernel := None;
      backwardKernel := None;
      maximumBatchSize := -1;
      numberBackwardBlocksInYDimension := -1;
      numberBackwardThreads := -1;
    }

    /**
     * Creates both kernels, uploads `maximumBatchSize` copies of `maximumInputColumns` as the
     * column counts, sizes the forward buffer for `maximumBatchSize` results and the backward
     * buffer for `maximumBatchSize` inputs, then records the backward grid. That last step throws
     * when the grid cannot be computed, after everything before it has happened.
     */
    method Acquire(maximumBatchSize: nat, gpu: Gpu) returns (outcome: Outcome<KotlinError>)
      modifies this, gpu
      ensures this.maximumBatchSize == maximumBatchSize
      ensures forwardKernel == Some(createForwardKernel()) && backwardKernel == Some(createBackwardKernel())
      ensures gpu.intArrays == old(gpu.intArrays)[deviceMaximumBatchLengths := seq(maximumBatchSize, _ => maximumInputColumns)]
      ensures pointerToMaximumBatchLengths == deviceMaximumBatchLengths
      ensures gpu.allocations == old(gpu.allocations)
        [deviceForwardResult := maximumBatchSize * shape.numberResultEntries]
        [deviceBackwardResult := maximumBatchSize * shape.numberInputEntries]
      ensures gpu.nextHandle == old(gpu.nextHandle) && gpu.floatUploads == old(gpu.floatUploads)
      ensures gpu.freed == old(gpu.freed) && gpu.destroyed == old(gpu.destroyed) && gpu.launches == old(gpu.launches)
      ensures var config := BackwardLaunchConfiguration(shape.numberInputEntries, shape.maximumNumberWarpsPerBlock, warpSize);
        && (config.Failure? ==>
             && outcome == Fail(config.error)
             && numberBackwardBlocksInYDimension == old(numberBackwardBlocksInYDimension)
             && numberBackwardThreads == old(numberBackwardThreads))
        && (config.Success? ==>
             && outcome == Pass
             && numberBackwardBlocksInYDimension == config.value.numberBlocks
             && numberBackwardThreads == config.value.numberThreadsPerBlock)
    {
      this.maximumBatchSize := maximumBatchSize;
      forwardKernel := Some(createForwardKernel());
      var maximumBatchLengths := seq(maximumBatchSize, _ => maximumInputColumns);
      assert maximumBatchLengths[..maximumBatchSize] == maximumBatchLengths;
      gpu.SetIntArray(maximumBatchLengths, maximumBatchSize, deviceMaximumBatchLengths);
      pointerToMaximumBatchLengths := deviceMaximumBatchLengths;
      gpu.AllocateFloats(deviceForwardResult, maximumBatchSize * shape.numberResultEntries);
      backwardKernel := Some(createBackwardKernel());
      gpu.AllocateFloats(deviceBackwardResult, maximumBatchSize * shape.numberInputEntries);
      var backwardLaunch := BackwardLaunchConfiguration(shape.numberInputEntries, shape.maximumNumberWarpsPerBlock, warpSize);
      if backwardLaunch.Failure? {
        return Fail(backwardLaunch.error);
      }
      numberBackwardBlocksInYDimension := backwardLaunch.value.numberBlocks;
      numberBackwardThreads := backwardLaunch.value.numberThreadsPerBlock;
      outcome := Pass;
    }

    /**
     * Frees the column counts, then destroys the forward kernel and frees its buffer, then the
     * same for the backward kernel. A kernel that was never created throws at its `!!`, after
     * the frees and destructions before it.
     */
    method Release(gpu: Gpu) returns (outcome: Outcome<KotlinError>)
      modifies gpu
      ensures gpu.nextHandle == old(gpu.nextHandle) && gpu.floatUploads == old(gpu.floatUploads)
      ensures gpu.intArrays == old(gpu.intArrays) && gpu.allocations == old(gpu.allocations)
      ensures gpu.launches == old(gpu.launches)
      ensures forwardKernel.None? ==>
        && outcome == Fail(NullPointerException)
        && gpu.freed == old(gpu.freed) + multiset{deviceMaximumBatchLengths}
        && gpu.destroyed == old(gpu.destroyed)
      ensures forwardKernel.Some? && backwardKernel.None? ==>
        && outcome == Fail(NullPointerException)
        && gpu.freed == old(gpu.freed) + multiset{deviceMaximumBatchLengths} + multiset{deviceForwardResult}
        && gpu.destroyed == old(gpu.destroyed) + [forwardKernel.value]
      ensures forwardKernel.Some? && backwardKernel.Some? ==>
        && outcome == Pass
        && gpu.freed == old(gpu.freed) + multiset{deviceMaximumBatchLengths} + multiset{deviceForwardResult} + multiset{deviceBackwardResult}
        && gpu.destroyed == old(gpu.destroyed) + [forwardKernel.value, backwardKernel.value]
    {
      gpu.Free(deviceMaximumBatchLengths);
      if forwardKernel.None? {
        return Fail(NullPointerException);
      }
      gpu.Destroy(forwardKernel.value);
      gpu.Free(deviceForwardResult);
      if backwardKernel.None? {
        return Fail(NullPointerException);
      }
      gpu.Destroy(backwardKernel.value);
      gpu.Free(deviceBackwardResult);
      outcome := Pass;
    }

    /**
     * The launch a forward pass makes once the batch size is stored: one block per sample of the
     * largest batch, and per sample one thread for each result entry, so that the whole grid has
     * exactly as many threads as `Acquire` allocates forward result entries.
     */
    function ForwardLaunch(kernel: Kernel, lengths: Pointer, deviceInput: Pointer): (l: Launch)
      reads this, batchSize
      requires batchSize.Length == 1 && Derived(shape)
      ensures l.kernel == kernel && l.lengths == lengths && l.input == deviceInput
      ensures l.batchSize == batchSize[0] && l.result == deviceForwardResult
      ensures l.numberBlocksInXDimension == maximumBatchSize
      ensures l.numberThreadsPerBlock == shape.numberOutputRows
      ensures l.numberBlocksInYDimension * l.numberThreadsPerBlock == shape.numberResultEntries
      ensures l.numberBlocksInXDimension * (l.numberBlocksInYDimension * l.numberThreadsPerBlock)
           == maximumBatchSize * shape.numberResultEntries
      ensures l.sharedMemoryBytes == 0
    {
      Launch(kernel, batchSize[0], lengths, deviceInput, deviceForwardResult,
             maximumBatchSize, shape.numberForwardBlocksInYDimension, shape.numberForwardThreads, 0)
    }

    /**
     * The fixed-length forward pass: stores the batch size, launches the forward kernel with the
     * maximum column counts, and returns the forward buffer. Without a kernel the `!!` throws,
     * after the batch size has been stored.
     */
    method Forward(batchSize: int, deviceInput: Pointer, isTraining: bool, gpu: Gpu)
      returns (r: Result<Pointer, KotlinError>)
      requires this.batchSize.Length == 1 && Derived(shape)
      modifies this.batchSize, gpu
      ensures this.batchSize[0] == batchSize
      ensures r.Failure? <==> forwardKernel.None?
      ensures r.Failure? ==> r.error == NullPointerException && gpu.launches == old(gpu.launches)
      ensures r.Success? ==>
        && r.value == deviceForwardResult
        && gpu.launches == old(gpu.launches) + [ForwardLaunch(forwardKernel.value, pointerToMaximumBatchLengths, deviceInput)]
      ensures gpu.nextHandle == old(gpu.nextHandle) && gpu.floatUploads == old(gpu.floatUploads)
      ensures gpu.intArrays == old(gpu.intArrays) && gpu.allocations == old(gpu.allocations)
      ensures gpu.freed == old(gpu.freed) && gpu.destroyed == old(gpu.destroyed)
    {
      this.batchSize[0] := batchSize;
      if forwardKernel.None? {
        return Failure(NullPointerException);
      }
      gpu.LaunchKernel(ForwardLaunch(forwardKernel.value, pointerToMaximumBatchLengths, deviceInput));
      r := Success(deviceForwardResult);
    }

    /** The variable-length forward pass: as `Forward`, with the caller's column counts. */
    method ForwardWithLengths(batchSize: int, deviceLengths: Pointer, deviceInput: Pointer, isTraining: bool, gpu: Gpu)
      returns (r: Result<Pointer, KotlinError>)
      requires this.batchSize.Length == 1 && Derived(shape)
      modifies this.batchSize, gpu
      ensures this.batchSize[0] == batchSize
      ensures r.Failure? <==> forwardKernel.None?
      ensures r.Failure? ==> r.error == NullPointerException && gpu.launches == old(gpu.launches)
      ensures r.Success? ==>
        && r.value == deviceForwardResult
        && gpu.launches == old(gpu.launches) + [ForwardLaunch(forwardKernel.value, deviceLengths, deviceInput)]
      ensures gpu.nextHandle == old(gpu.nextHandle) && gpu.floatUploads == old(gpu.floatUploads)
      ensures gpu.intArrays == old(gpu.intArrays) && gpu.allocations == old(gpu.allocations)
      ensures gpu.freed == old(gpu.freed) && gpu.destroyed == old(gpu.destroyed)
    {
      this.batchSize[0] := batchSize;
      if forwardKernel.None? {
        return Failure(NullPointerException);
      }
      gpu.LaunchKernel(ForwardLaunch(forwardKernel.value, deviceLengths, deviceInput));
      r := Success(deviceForwardResult);
    }

    /**
     * The backward pass launches the backward kernel on the grid recorded by `Acquire` and
     * returns the backward buffer. Its `batchSize` argument is not used: the kernel reads the
     * batch size the last forward pass stored.
     */
    method Backward(batchSize: int, chain: Pointer, gpu: Gpu) returns (r: Result<Pointer, KotlinError>)
      requires this.batchSize.Length == 1
      modifies gpu
      ensures r.Failure? <==> backwardKernel.None?
      ensures r.Failure? ==> r.error == NullPointerException && gpu.launches == old(gpu.launches)
      ensures r.Success? ==>
        && r.value == deviceBackwardResult
        && gpu.launches == old(gpu.launches) +
             [Launch(backwardKernel.value, this.batchSize[0], pointerToMaximumBatchLengths, chain, deviceBackwardResult,
                     maximumBatchSize, numberBackwardBlocksInYDimension, numberBackwardThreads, 0)]
      ensures gpu.nextHandle == old(gpu.nextHandle) && gpu.floatUploads == old(gpu.floatUploads)
      ensures gpu.intArrays == old(gpu.intArrays) && gpu.allocations == old(gpu.allocations)
      ensures gpu.freed == old(gpu.freed) && gpu.destroyed == old(gpu.destroyed)
    {
      if backwardKernel.None? {
        return Failure(NullPointerException);
      }
      gpu.LaunchKernel(Launch(backwardKernel.value, this.batchSize[0], pointerToMaximumBatchLengths, chain,
                              deviceBackwardResult, maximumBatchSize, numberBackwardBlocksInYDimension,
                              numberBackwardThreads, 0));
      r := Success(deviceBackwardResult);
    }
  }

  /**
   * `release` needs a prior `acquire`: on a layer that was never acquired it throws at the first
   * `!!`, having freed only the column counts.
   */
  method ReleaseBeforeAcquire(layer: CudaExpansionLayer, gpu: Gpu) returns (outcome: Outcome<KotlinError>)
    requires layer.forwardKernel == None
    modifies gpu
    ensures outcome == Fail(NullPointerException)
    ensures gpu.freed == old(gpu.freed) + multiset{layer.deviceMaximumBatchLengths}
    ensures gpu.destroyed == old(gpu.destroyed)
  {
    outcome := layer.Release(gpu);
  }

  /**
   * After `acquire`, whether or not its grid computation threw, `release` frees the column
   * counts and both buffers and destroys both kernels.
   */
  method AcquireThenRelease(layer: CudaExpansionLayer, maximumBatchSize: nat, gpu: Gpu)
    returns (acquired: Outcome<KotlinError>, released: Outcome<KotlinError>)
    modifies layer, gpu
    ensures released == Pass
    ensures gpu.freed == old(gpu.freed) +
      multiset{layer.deviceMaximumBatchLengths, layer.deviceForwardResult, layer.deviceBackwardResult}
    ensures gpu.destroyed == old(gpu.destroyed) + [layer.createForwardKernel(), layer.createBackwardKernel()]
  {
    acquired := layer.Acquire(maximumBatchSize, gpu);
    released := layer.Release(gpu);
  }
}
