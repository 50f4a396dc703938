/** The dense layer instruction: a projection with a bias, followed by an activation. */
module Dense {
  import opened Wrappers
  import opened Names
  import opened Instructions
  import opened Activation
  import Projection

  /** `cpuActivationLayer(name, function, numberRows, numberColumns).buildForCpu()`; its body is not part of this model. */
  datatype CpuActivationLayer =
    CpuActivationLayer(name: LayerName, activation: ActivationFunction, numberRows: int, numberColumns: int)

  /** The arguments of `CpuDenseLayer(...)`. */
  datatype CpuDenseLayer = CpuDenseLayer(
    name: LayerName,
    projectionLayer: Projection.CpuProjectionLayer,
    activationLayer: CpuActivationLayer)

  /** The arguments of `CudaDenseLayer(...)`; the activation instruction stands for the layer it builds. */
  datatype CudaDenseLayer = CudaDenseLayer(
    name: LayerName,
    projectionLayer: Projection.CublasProjectionLayer,
    activationLayer: CudaActivationLayerInstruction)

  /** `DenseLayer(...)`; the full `denseLayer(name, rows, columns, outputRows, ...)` overload is this constructor. */
  datatype DenseLayer = DenseLayer(
    name: LayerName,
    numberInputRows: int,
    numberInputColumns: int,
    numberOutputRows: int,
    weightInitialization: InitializationStrategy,
    biasInitialization: InitializationStrategy,
    activationFunction: ActivationFunction,
    optimization: Option<OptimizationInstruction>)
  {
    /** The projection instruction: same dimensions, fixed length, and always a bias. */
    function ProjectionPart(): (p: Projection.ProjectionLayer)
      ensures p.name == ConcatenateNames(name, "projection")
      ensures p.numberInputRows == numberInputRows && p.numberInputColumns == numberInputColumns
      ensures p.hasFixedLength && p.numberOutputRows == numberOutputRows
      ensures p.weightInitializationStrategy == weightInitialization
      ensures p.biasInitializationStrategy == Some(biasInitialization)
      ensures p.optimizationStrategy == optimization
    {
      Projection.ProjectionLayer(ConcatenateNames(name, "projection"), numberInputRows, numberInputColumns, true, numberOutputRows,
                                 weightInitialization, Some(biasInitialization), optimization)
    }

    /** The projection, then an activation over `numberOutputRows` rows and one column. */
    function BuildForCpu(): (r: CpuDenseLayer)
      ensures r.name == name
      ensures r.projectionLayer == ProjectionPart().BuildForCpu()
      ensures r.activationLayer == CpuActivationLayer(ConcatenateNames(name, "activation"), activationFunction, numberOutputRows, 1)
    {
      var projectionLayer := ProjectionPart().BuildForCpu();
      var activationLayer := CpuActivationLayer(ConcatenateNames(name, "activation"), activationFunction, numberOutputRows, 1);
      CpuDenseLayer(name, projectionLayer, activationLayer)
    }

    /**
     * The cuBLAS projection, then the CUDA activation of dimension `numberOutputRows`; an
     * activation the CUDA dispatch does not support makes the whole build fail.
     */
    function BuildForCuda(context: CudaContext): (r: Result<CudaDenseLayer, KotlinError>)
      ensures r.Failure? <==> activationFunction.Other?
      ensures r.Failure? ==> r.error == NotImplementedError
      ensures r.Success? ==>
        && r.value.name == name
        && r.value.projectionLayer == ProjectionPart().BuildForCuda(context)
        && r.value.activationLayer.name == ConcatenateNames(name, "activation")
        && r.value.activationLayer.Function() == activationFunction
        && (activationFunction != Identity ==> r.value.activationLayer.Dimension() == Some(numberOutputRows))
    {
      var projectionLayer := ProjectionPart().BuildForCuda(context);
      match CudaActivationLayer(ConcatenateNames(name, "activation"), activationFunction, numberOutputRows)
      case Failure(e) => Failure(e)
      case Success(activationLayer) => Success(CudaDenseLayer(name, projectionLayer, activationLayer))
    }
  }

  /**
   * A dense layer's CPU projection always has a bias, `<name>.projection.bias`, over the output
   * rows, and both sub-layers accept exactly `numberInputColumns` columns.
   */
  lemma CpuProjectionAlwaysBiased(d: DenseLayer)
    ensures var p := d.BuildForCpu().projectionLayer;
      && p.name == ConcatenateNames(d.name, "projection")
      && p.biasLayer.Some?
      && p.biasLayer.value.name == ConcatenateNames(ConcatenateNames(d.name, "projection"), "bias")
      && p.biasLayer.value.numberInputRows == d.numberOutputRows
      && p.weightingLayer.minimumInputColumns == d.numberInputColumns
      && p.weightingLayer.maximumInputColumns == d.numberInputColumns
      && p.biasLayer.value.minimumInputColumns == d.numberInputColumns
      && p.biasLayer.value.maximumInputColumns == d.numberInputColumns
  {
  }

  /** The CUDA build's projection likewise always has a bias over the output rows. */
  lemma CudaProjectionAlwaysBiased(d: DenseLayer, context: CudaContext)
    requires d.BuildForCuda(context).Success?
    ensures var p := d.BuildForCuda(context).value.projectionLayer;
      && p.biasLayer.Some?
      && p.biasLayer.value.numberRows == d.numberOutputRows
      && p.weightingLayer.numberOutputRows == d.numberOutputRows
  {
  }

  /** `denseLayer(numberInputRows, numberInputColumns, numberOutputRows, ...)`: unnamed. */
  function UnnamedDenseLayer(numberInputRows: int, numberInputColumns: int, numberOutputRows: int,
                             weightInitialization: InitializationStrategy, biasInitialization: InitializationStrategy,
                             activationFunction: ActivationFunction,
                             optimization: Option<OptimizationInstruction> := None)
    : (r: DenseLayer)
    ensures r.name == Unnamed
    ensures r.numberInputRows == numberInputRows && r.numberInputColumns == numberInputColumns
    ensures r.numberOutputRows == numberOutputRows
    ensures r.weightInitialization == weightInitialization && r.biasInitialization == biasInitialization
    ensures r.activationFunction == activationFunction && r.optimization == optimization
  {
    DenseLayer(Unnamed, numberInputRows, numberInputColumns, numberOutputRows, weightInitialization,
               biasInitialization, activationFunction, optimization)
  }

  /** `denseLayer(name, inputDimension, outputDimension, ...)`: one input column. */
  function VectorDenseLayer(name: LayerName, inputDimension: int, outputDimension: int,
                            weightInitialization: InitializationStrategy, biasInitialization: InitializationStrategy,
                            activationFunction: ActivationFunction,
                            optimization: Option<OptimizationInstruction> := None)
    : (r: DenseLayer)
    ensures r.name == name && r.numberInputRows == inputDimension && r.numberOutputRows == outputDimension
    ensures r.numberInputColumns == 1
    ensures r.weightInitialization == weightInitialization && r.biasInitialization == biasInitialization
    ensures r.activationFunction == activationFunction && r.optimization == optimization
  {
    DenseLayer(name, inputDimension, 1, outputDimension, weightInitialization, biasInitialization,
               activationFunction, optimization)
  }

  /** `denseLayer(inputDimension, outputDimension, ...)`: the vector overload without a name. */
  function UnnamedVectorDenseLayer(inputDimension: int, outputDimension: int,
                                   weightInitialization: InitializationStrategy, biasInitialization: InitializationStrategy,
                                   activationFunction: ActivationFunction,
                                   optimization: Option<OptimizationInstruction> := None)
    : (r: DenseLayer)
    ensures r == VectorDenseLayer(Unnamed, inputDimension, outputDimension, weightInitialization, biasInitialization,
                                  activationFunction, optimization)
  {
    VectorDenseLayer(Unnamed, inputDimension, outputDimension, weightInitialization, biasInitialization,
                     activationFunction, optimization)
  }
}
