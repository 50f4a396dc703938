/**
 * The CUDA entry point. A batch is uploaded to the device once, the first time its id is
 * seen; every later forward pass with that id reuses the pointer kept in the input memory.
 */
module CudaInput {
  import opened Devices
  import opened Names
  import opened Matrices
  import opened Memory

  class CudaInputLayer {
    const name: LayerName
    const numberOutputRows: nat
    const maximumOutputColumns: nat
    /** Rows times columns of one sample. */
    const numberEntries: nat
    /**
     * `sparselyConcatenateFloatMatrixEntries(inputs, numberRows, target)`: writes the entries of
     * the gathered samples into `target`. Its body is not part of this model; the result is the
     * new content of `target`.
     */
    const concatenate: (seq<FloatArray>, int, seq<real>) -> seq<real>

    var deviceNumberOutputColumns: Pointer
    var deviceForwardResult: Pointer
    var concatenation: seq<real>
    var batchInputs: array<FloatArray>
    var numberBatchEntries: int

    constructor (name: LayerName, numberRows: nat, numberColumns: nat,
                 concatenate: (seq<FloatArray>, int, seq<real>) -> seq<real>, gpu: Gpu)
      modifies gpu
      ensures this.name == name && numberOutputRows == numberRows && maximumOutputColumns == numberColumns
      ensures numberEntries == numberRows * numberColumns && this.concatenate == concatenate
      ensures deviceNumberOutputColumns == Pointer(old(gpu.nextHandle))
      ensures deviceForwardResult == Pointer(old(gpu.nextHandle) + 1)
      ensures gpu.nextHandle == old(gpu.nextHandle) + 2
      ensures concatenation == [] && batchInputs.Length == 0 && numberBatchEntries == -1
      ensures fresh(batchInputs)
    {
      this.name := name;
      numberOutputRows := numberRows;
      maximumOutputColumns := numberColumns;
      numberEntries := numberRows * numberColumns;
      this.concatenate := concatenate;
      var lengths := gpu.NewPointer();
      var result := gpu.NewPointer();
      deviceNumberOutputColumns := lengths;
      deviceForwardResult := result;
      concatenation := [];
      batchInputs := new FloatArray[0];
      numberBatchEntries := -1;
    }

    /**
     * Sizes the scratch buffers for `maximumBatchSize` samples and uploads one column count,
     * `maximumOutputColumns`, per sample.
     */
    method Acquire(maximumBatchSize: nat, gpu: Gpu)
      modifies this, gpu
      ensures |concatenation| == maximumBatchSize * numberEntries
      ensures forall k :: 0 <= k < |concatenation| ==> concatenation[k] == 0.0
      ensures fresh(batchInputs) && batchInputs.Length == maximumBatchSize
      ensures forall k :: 0 <= k < batchInputs.Length ==> batchInputs[k] == []
      ensures numberBatchEntries == maximumBatchSize * numberEntries
      ensures deviceNumberOutputColumns == old(deviceNumberOutputColumns)
      ensures deviceForwardResult == old(deviceForwardResult)
      ensures gpu.intArrays == old(gpu.intArrays)[deviceNumberOutputColumns := ColumnCounts(maximumBatchSize)]
      ensures gpu.nextHandle == old(gpu.nextHandle) && gpu.floatUploads == old(gpu.floatUploads)
      ensures gpu.allocations == old(gpu.allocations) && gpu.freed == old(gpu.freed)
      ensures gpu.destroyed == old(gpu.destroyed) && gpu.launches == old(gpu.launches)
    {
      concatenation := seq(maximumBatchSize * numberEntries, _ => 0.0);
      batchInputs := new FloatArray[maximumBatchSize](_ => []);
      numberBatchEntries := maximumBatchSize * numberEntries;
      var counts := ColumnCounts(maximumBatchSize);
      assert counts[..maximumBatchSize] == counts;
      gpu.SetIntArray(counts, maximumBatchSize, deviceNumberOutputColumns);
    }

    /** `IntArray(maximumBatchSize) { maximumOutputColumns }`. */
    function ColumnCounts(maximumBatchSize: nat): (counts: seq<int>)
      ensures |counts| == maximumBatchSize
      ensures forall k :: 0 <= k < |counts| ==> counts[k] == maximumOutputColumns
    {
      seq(maximumBatchSize, _ => maximumOutputColumns)
    }

    /** Drops the concatenation buffer and frees the device column counts. */
    method Release(gpu: Gpu)
      modifies this, gpu
      ensures concatenation == [] && numberBatchEntries == -1
      ensures batchInputs == old(batchInputs)
      ensures deviceNumberOutputColumns == old(deviceNumberOutputColumns)
      ensures deviceForwardResult == old(deviceForwardResult)
      ensures gpu.freed == old(gpu.freed) + multiset{deviceNumberOutputColumns}
      ensures gpu.nextHandle == old(gpu.nextHandle) && gpu.floatUploads == old(gpu.floatUploads)
      ensures gpu.intArrays == old(gpu.intArrays) && gpu.allocations == old(gpu.allocations)
      ensures gpu.destroyed == old(gpu.destroyed) && gpu.launches == old(gpu.launches)
    {
      concatenation := [];
      numberBatchEntries := -1;
      gpu.Free(deviceNumberOutputColumns);
    }

    /**
     * `forward`, with the private `getData` written inline. A batch id already in `memory`
     * returns its stored pointer and changes nothing else. Otherwise the samples named by
     * `batch` are gathered into `batchInputs`, concatenated, uploaded once under a new pointer,
     * and that pointer is stored under `batchId`. Either way it becomes `deviceForwardResult`.
     * `batchSize` is not used. The gather indexes `inputs` and `batchInputs`, so on a miss the
     * batch must fit the acquired size and name existing samples.
     */
    method Forward(batchId: int, batchSize: int, batch: seq<int>, inputs: seq<Matrix>,
                   memory: InputMemory, gpu: Gpu) returns (result: Pointer)
      requires batchId !in memory.deviceData ==>
        |batch| <= batchInputs.Length && forall k :: 0 <= k < |batch| ==> 0 <= batch[k] < |inputs|
      modifies this, batchInputs, memory, gpu
      ensures deviceForwardResult == result
      ensures batchInputs == old(batchInputs) && numberBatchEntries == old(numberBatchEntries)
      ensures deviceNumberOutputColumns == old(deviceNumberOutputColumns)
      ensures memory.deviceColumnLengths == old(memory.deviceColumnLengths)
      ensures memory.totalNumbersOfColumns == old(memory.totalNumbersOfColumns)
      ensures gpu.intArrays == old(gpu.intArrays) && gpu.allocations == old(gpu.allocations)
      ensures gpu.freed == old(gpu.freed) && gpu.destroyed == old(gpu.destroyed)
      ensures gpu.launches == old(gpu.launches)
      // cache hit
      ensures batchId in old(memory.deviceData) ==>
        && result == old(memory.deviceData[batchId])
        && memory.deviceData == old(memory.deviceData)
        && batchInputs[..] == old(batchInputs[..])
        && concatenation == old(concatenation)
        && gpu.nextHandle == old(gpu.nextHandle) && gpu.floatUploads == old(gpu.floatUploads)
      // cache miss
      ensures batchId !in old(memory.deviceData) ==>
        && (forall k :: 0 <= k < |batch| ==> batchInputs[k] == inputs[batch[k]].entries)
        && (forall k :: |batch| <= k < batchInputs.Length ==> batchInputs[k] == old(batchInputs[k]))
        && concatenation == concatenate(batchInputs[..], numberOutputRows, old(concatenation))
        && result == Pointer(old(gpu.nextHandle)) && gpu.nextHandle == old(gpu.nextHandle) + 1
        && gpu.floatUploads == old(gpu.floatUploads) + [FloatUpload(result, concatenation, numberBatchEntries)]
        && memory.deviceData == old(memory.deviceData)[batchId := result]
    {
      var optionalDeviceForwardPointer := memory.TryToGetData(batchId);
      match optionalDeviceForwardPointer {
        case Some(pointer) =>
          result := pointer;
        case None =>
          var withinBatch := 0;
          while withinBatch < |batch|
            modifies batchInputs
            invariant 0 <= withinBatch <= |batch|
            invariant forall k :: 0 <= k < withinBatch ==> batchInputs[k] == inputs[batch[k]].entries
            invariant forall k :: withinBatch <= k < batchInputs.Length ==> batchInputs[k] == old(batchInputs[k])
          {
            var input := inputs[batch[withinBatch]];
            batchInputs[withinBatch] := input.entries;
            withinBatch := withinBatch + 1;
          }
          concatenation := concatenate(batchInputs[..], numberOutputRows, concatenation);
          var deviceInput := gpu.NewPointer();
          gpu.SetFloatArray(concatenation, numberBatchEntries, deviceInput);
          memory.SetData(batchId, deviceInput);
          result := deviceInput;
      }
      deviceForwardResult := result;
    }

    /** The entry point passes the chain back unchanged. */
    function Backward(chain: Pointer): (r: Pointer)
      ensures r == chain
    {
      chain
    }
  }

  /**
   * Two forward passes with the same batch id: the second is a cache hit, so it returns the
   * pointer the first one produced and performs no further upload.
   */
  method ForwardTwice(layer: CudaInputLayer, batchId: int, batch: seq<int>, inputs: seq<Matrix>,
                      memory: InputMemory, gpu: Gpu) returns (first: Pointer, second: Pointer)
    requires batchId !in memory.deviceData ==>
      |batch| <= layer.batchInputs.Length && forall k :: 0 <= k < |batch| ==> 0 <= batch[k] < |inputs|
    modifies layer, layer.batchInputs, memory, gpu
    ensures second == first
    ensures batchId in memory.deviceData && memory.deviceData[batchId] == first
    ensures |gpu.floatUploads| <= |old(gpu.floatUploads)| + 1
    ensures batchId in old(memory.deviceData) ==> gpu.floatUploads == old(gpu.floatUploads)
  {
    first := layer.Forward(batchId, |batch|, batch, inputs, memory, gpu);
    second := layer.Forward(batchId, |batch|, batch, inputs, memory, gpu);
  }
}
