/**
 * The cuBLAS projection layer: a weighting sub-layer optionally followed by a bias sub-layer.
 * The two sub-layers are not part of this model beyond what the composite needs: each one's
 * device computation is an uninterpreted kernel, and every call on them is appended to a
 * shared ghost log, so that call order and the pointers passed along can be stated.
 */
module CublasProjection {
  import opened Devices

  datatype Call =
    | WeightingForward(batchSize: int, numberInputColumns: Pointer, input: Pointer, isTraining: bool, result: Pointer)
    | BiasForward(batchSize: int, numberInputColumns: Pointer, input: Pointer, isTraining: bool, result: Pointer)
    | WeightingBackward(batchSize: int, chain: Pointer, result: Pointer)
    | BiasBackward(batchSize: int, chain: Pointer, result: Pointer)
    | WeightingOptimize(scalingFactor: real)
    | BiasOptimize(scalingFactor: real)

  class CallLog {
    ghost var calls: seq<Call>

    constructor ()
      ensures calls == []
    {
      calls := [];
    }
  }

  /** `CublasWeightingLayer`: a weight matrix applied on the device. */
  class CublasWeightingLayer {
    const log: CallLog
    const numberInputRows: int
    const maximumInputColumns: int
    const numberOutputRows: int
    const maximumOutputColumns: int
    const forwardKernel: (int, Pointer, Pointer, bool) -> Pointer
    const backwardKernel: (int, Pointer) -> Pointer
    var deviceForwardResult: Pointer
    var deviceBackwardResult: Pointer

    constructor (log: CallLog, numberInputRows: int, maximumInputColumns: int,
                 numberOutputRows: int, maximumOutputColumns: int,
                 forwardKernel: (int, Pointer, Pointer, bool) -> Pointer,
                 backwardKernel: (int, Pointer) -> Pointer,
                 deviceForwardResult: Pointer, deviceBackwardResult: Pointer)
      ensures this.log == log && this.numberInputRows == numberInputRows
      ensures this.maximumInputColumns == maximumInputColumns
      ensures this.numberOutputRows == numberOutputRows && this.maximumOutputColumns == maximumOutputColumns
      ensures this.forwardKernel == forwardKernel && this.backwardKernel == backwardKernel
      ensures this.deviceForwardResult == deviceForwardResult
      ensures this.deviceBackwardResult == deviceBackwardResult
    {
      this.log := log;
      this.numberInputRows := numberInputRows;
      this.maximumInputColumns := maximumInputColumns;
      this.numberOutputRows := numberOutputRows;
      this.maximumOutputColumns := maximumOutputColumns;
      this.forwardKernel := forwardKernel;
      this.backwardKernel := backwardKernel;
      this.deviceForwardResult := deviceForwardResult;
      this.deviceBackwardResult := deviceBackwardResult;
    }

    method Forward(batchSize: int, deviceNumberInputColumns: Pointer, deviceInput: Pointer, isTraining: bool)
      returns (result: Pointer)
      modifies this, log
      ensures result == forwardKernel(batchSize, deviceNumberInputColumns, deviceInput, isTraining)
      ensures deviceForwardResult == result && deviceBackwardResult == old(deviceBackwardResult)
      ensures log.calls == old(log.calls) +
        [WeightingForward(batchSize, deviceNumberInputColumns, deviceInput, isTraining, result)]
    {
      result := forwardKernel(batchSize, deviceNumberInputColumns, deviceInput, isTraining);
      deviceForwardResult := result;
      log.calls := log.calls + [WeightingForward(batchSize, deviceNumberInputColumns, deviceInput, isTraining, result)];
    }

    method Backward(batchSize: int, chain: Pointer) returns (result: Pointer)
      modifies this, log
      ensures result == backwardKernel(batchSize, chain)
      ensures deviceBackwardResult == result && deviceForwardResult == old(deviceForwardResult)
      ensures log.calls == old(log.calls) + [WeightingBackward(batchSize, chain, result)]
    {
      result := backwardKernel(batchSize, chain);
      deviceBackwardResult := result;
      log.calls := log.calls + [WeightingBackward(batchSize, chain, result)];
    }

    method Optimize(scalingFactor: real)
      modifies log
      ensures log.calls == old(log.calls) + [WeightingOptimize(scalingFactor)]
    {
      log.calls := log.calls + [WeightingOptimize(scalingFactor)];
    }
  }

  /** `CublasBiasLayer`: a bias vector added on the device. */
  class CublasBiasLayer {
    const log: CallLog
    const forwardKernel: (int, Pointer, Pointer, bool) -> Pointer
    const backwardKernel: (int, Pointer) -> Pointer

    constructor (log: CallLog, forwardKernel: (int, Pointer, Pointer, bool) -> Pointer,
                 backwardKernel: (int, Pointer) -> Pointer)
      ensures this.log == log && this.forwardKernel == forwardKernel && this.backwardKernel == backwardKernel
    {
      this.log := log;
      this.forwardKernel := forwardKernel;
      this.backwardKernel := backwardKernel;
    }

    method Forward(batchSize: int, deviceNumberInputColumns: Pointer, deviceInput: Pointer, isTraining: bool)
      returns (result: Pointer)
      modifies log
      ensures result == forwardKernel(batchSize, deviceNumberInputColumns, deviceInput, isTraining)
      ensures log.calls == old(log.calls) +
        [BiasForward(batchSize, deviceNumberInputColumns, deviceInput, isTraining, result)]
    {
      result := forwardKernel(batchSize, deviceNumberInputColumns, deviceInput, isTraining);
      log.calls := log.calls + [BiasForward(batchSize, deviceNumberInputColumns, deviceInput, isTraining, result)];
    }

    method Backward(batchSize: int, chain: Pointer) returns (result: Pointer)
      modifies log
      ensures result == backwardKernel(batchSize, chain)
      ensures log.calls == old(log.calls) + [BiasBackward(batchSize, chain, result)]
    {
      result := backwardKernel(batchSize, chain);
      log.calls := log.calls + [BiasBackward(batchSize, chain, result)];
    }

    method Optimize(scalingFactor: real)
      modifies log
      ensures log.calls == old(log.calls) + [BiasOptimize(scalingFactor)]
    {
      log.calls := log.calls + [BiasOptimize(scalingFactor)];
    }
  }

  /**
   * The composite. `deviceNumberOutputColumns` is inherited from the CUDA forward-layer base
   * class, which is not part of this model; it is taken as given.
   */
  class CublasProjectionLayer {
    const log: CallLog
    const weightingLayer: CublasWeightingLayer
    const biasLayer: CublasBiasLayer?
    const deviceNumberOutputColumns: Pointer

    var deviceForwardResult: Pointer
    var numberOutputRows: int
    var maximumOutputColumns: int
    var deviceBackwardResult: Pointer
    var numberInputRows: int
    var maximumInputColumns: int

    /** Both sub-layers write to this layer's log. */
    predicate Valid()
      reads this, weightingLayer, biasLayer
    {
      weightingLayer.log == log && (biasLayer != null ==> biasLayer.log == log)
    }

    /** Before any forward pass every recorded dimension is -1, and both result pointers are new. */
    constructor (log: CallLog, weightingLayer: CublasWeightingLayer, biasLayer: CublasBiasLayer?,
                 deviceNumberOutputColumns: Pointer, gpu: Gpu)
      requires weightingLayer.log == log && (biasLayer != null ==> biasLayer.log == log)
      modifies gpu
      ensures Valid()
      ensures this.log == log && this.weightingLayer == weightingLayer && this.biasLayer == biasLayer
      ensures this.deviceNumberOutputColumns == deviceNumberOutputColumns
      ensures numberOutputRows == -1 && maximumOutputColumns == -1
      ensures numberInputRows == -1 && maximumInputColumns == -1
      ensures deviceForwardResult == Pointer(old(gpu.nextHandle))
      ensures deviceBackwardResult == Pointer(old(gpu.nextHandle) + 1)
      ensures gpu.nextHandle == old(gpu.nextHandle) + 2
    {
      this.log := log;
      this.weightingLayer := weightingLayer;
      this.biasLayer := biasLayer;
      this.deviceNumberOutputColumns := deviceNumberOutputColumns;
      var forwardResult := gpu.NewPointer();
      var backwardResult := gpu.NewPointer();
      deviceForwardResult := forwardResult;
      numberOutputRows := -1;
      maximumOutputColumns := -1;
      deviceBackwardResult := backwardResult;
      numberInputRows := -1;
      maximumInputColumns := -1;
    }

    /**
     * Weighting first. Without a bias the weighted result is returned and the output fields are
     * copied from the weighting layer. With a bias, the bias is applied to the weighted result
     * (with this layer's column counts), and it is the backward-result and input fields that are
     * copied; the output fields keep their values.
     */
    method Forward(batchSize: int, deviceNumberInputColumns: Pointer, deviceInput: Pointer, isTraining: bool)
      returns (result: Pointer)
      requires Valid()
      modifies this, weightingLayer, log
      ensures Valid()
      ensures var weighted := weightingLayer.forwardKernel(batchSize, deviceNumberInputColumns, deviceInput, isTraining);
        && weightingLayer.deviceForwardResult == weighted
        && weightingLayer.deviceBackwardResult == old(weightingLayer.deviceBackwardResult)
        && (biasLayer == null ==>
          && result == weighted
          && log.calls == old(log.calls) +
               [WeightingForward(batchSize, deviceNumberInputColumns, deviceInput, isTraining, weighted)]
          && deviceForwardResult == weightingLayer.deviceForwardResult
          && numberOutputRows == weightingLayer.numberOutputRows
          && maximumOutputColumns == weightingLayer.maximumOutputColumns
          && deviceBackwardResult == old(deviceBackwardResult)
          && numberInputRows == old(numberInputRows) && maximumInputColumns == old(maximumInputColumns))
        && (biasLayer != null ==>
          && result == biasLayer.forwardKernel(batchSize, deviceNumberOutputColumns, weighted, isTraining)
          && log.calls == old(log.calls) +
               [WeightingForward(batchSize, deviceNumberInputColumns, deviceInput, isTraining, weighted),
                BiasForward(batchSize, deviceNumberOutputColumns, weighted, isTraining, result)]
          && deviceBackwardResult == weightingLayer.deviceBackwardResult
          && numberInputRows == weightingLayer.numberInputRows
          && maximumInputColumns == weightingLayer.maximumInputColumns
          && deviceForwardResult == old(deviceForwardResult)
          && numberOutputRows == old(numberOutputRows) && maximumOutputColumns == old(maximumOutputColumns))
    {
      var weighted := weightingLayer.Forward(batchSize, deviceNumberInputColumns, deviceInput, isTraining);
      if biasLayer == null {
        deviceForwardResult := weightingLayer.deviceForwardResult;
        numberOutputRows := weightingLayer.numberOutputRows;
        maximumOutputColumns := weightingLayer.maximumOutputColumns;
        result := weighted;
      } else {
        var weightedAndBiased := biasLayer.Forward(batchSize, deviceNumberOutputColumns, weighted, isTraining);
        deviceBackwardResult := weightingLayer.deviceBackwardResult;
        numberInputRows := weightingLayer.numberInputRows;
        maximumInputColumns := weightingLayer.maximumInputColumns;
        result := weightedAndBiased;
      }
    }

    /**
     * Returns the weighting layer's backward result; the bias layer, when present, is given
     * the same chain afterwards and what it returns is dropped.
     */
    method Backward(batchSize: int, chain: Pointer) returns (result: Pointer)
      requires Valid()
      modifies weightingLayer, log
      ensures Valid()
      ensures result == weightingLayer.backwardKernel(batchSize, chain)
      ensures weightingLayer.deviceBackwardResult == result
      ensures weightingLayer.deviceForwardResult == old(weightingLayer.deviceForwardResult)
      ensures biasLayer == null ==>
        log.calls == old(log.calls) + [WeightingBackward(batchSize, chain, result)]
      ensures biasLayer != null ==>
        log.calls == old(log.calls) +
          [WeightingBackward(batchSize, chain, result),
           BiasBackward(batchSize, chain, biasLayer.backwardKernel(batchSize, chain))]
    {
      var backwardWeighting := weightingLayer.Backward(batchSize, chain);
      if biasLayer != null {
        var _ := biasLayer.Backward(batchSize, chain);
      }
      result := backwardWeighting;
    }

    /** Both sub-layers are optimized with the same factor, weighting first. */
    method Optimize(scalingFactor: real)
      requires Valid()
      modifies log
      ensures biasLayer == null ==> log.calls == old(log.calls) + [WeightingOptimize(scalingFactor)]
      ensures biasLayer != null ==>
        log.calls == old(log.calls) + [WeightingOptimize(scalingFactor), BiasOptimize(scalingFactor)]
    {
      weightingLayer.Optimize(scalingFactor);
      if biasLayer != null {
        biasLayer.Optimize(scalingFactor);
      }
    }
  }
}
