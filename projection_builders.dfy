/**
 * The weighting layer instruction: its derived shape and the CPU and cuBLAS layers it builds,
 * each kept as the arguments the layer is constructed with.
 */
module Weighting {
  import opened Wrappers
  import opened Names
  import opened Instructions

  /** The arguments of `CpuWeightingLayer(...)`. */
  datatype CpuWeightingLayer = CpuWeightingLayer(
    name: LayerName,
    initialWeights: Weights,
    numberInputRows: int,
    minimumInputColumns: int,
    maximumInputColumns: int,
    numberWeightRows: int,
    accumulator: DenseAccumulator,
    updateRule: Option<CpuUpdateRule>)

  /** The arguments of `CublasWeightingLayer(...)`, less the cuBLAS handle. */
  datatype CublasWeightingLayer = CublasWeightingLayer(
    name: LayerName,
    numberInputRows: int,
    maximumInputColumns: int,
    numberOutputRows: int,
    initialWeights: Weights,
    updateRule: Option<CudaUpdateRule>)

  /**
   * `WeightingLayer(...)`; the full `weightingLayer(name, rows, columns, hasFixedLength,
   * outputRows, ...)` overload is this constructor.
   */
  datatype WeightingLayer = WeightingLayer(
    name: LayerName,
    numberInputRows: int,
    numberInputColumns: int,
    hasFixedLength: bool,
    numberOutputRows: int,
    weightInitializationStrategy: InitializationStrategy,
    optimizationStrategy: Option<OptimizationInstruction>)
  {
    function MinimumColumns(): int {
      MinimumInputColumns(numberInputColumns, hasFixedLength)
    }

    function MaximumColumns(): int {
      numberInputColumns
    }

    function NumberWeightRows(): int {
      numberOutputRows
    }

    function NumberWeightColumns(): int {
      numberInputRows
    }

    function MaximumNumberEntries(): int {
      numberInputRows * MaximumColumns()
    }

    /**
     * A `numberOutputRows` by `numberInputRows` weight matrix with an accumulator of the same
     * size, the column range of the instruction, the name `<name>.weighting`, and a CPU update
     * rule over the weight matrix exactly when an optimisation is given.
     */
    function BuildForCpu(): (r: CpuWeightingLayer)
      ensures r.name == ConcatenateNames(name, "weighting")
      ensures r.initialWeights == InitializedWeights(weightInitializationStrategy, numberOutputRows,
                                                     numberInputRows, numberInputRows * numberInputColumns)
      ensures r.numberInputRows == numberInputRows && r.numberWeightRows == numberOutputRows
      ensures r.minimumInputColumns == (if hasFixedLength then numberInputColumns else 1)
      ensures r.maximumInputColumns == numberInputColumns
      ensures r.accumulator.size == numberOutputRows * numberInputRows
      ensures r.updateRule.Some? <==> optimizationStrategy.Some?
      ensures r.updateRule.Some? ==>
        r.updateRule.value.numberRows == numberOutputRows && r.updateRule.value.numberColumns == numberInputRows
    {
      var weightingName := ConcatenateNames(name, "weighting");
      var initialWeights := InitializedWeights(weightInitializationStrategy, NumberWeightRows(), NumberWeightColumns(),
                                               MaximumNumberEntries());
      var accumulator := DenseAccumulator(NumberWeightRows() * NumberWeightColumns());
      var updateRule := CpuUpdateRuleFor(optimizationStrategy, NumberWeightRows(), NumberWeightColumns());
      CpuWeightingLayer(weightingName, initialWeights, numberInputRows, MinimumColumns(), MaximumColumns(),
                        NumberWeightRows(), accumulator, updateRule)
    }

    /** The same weights and name as on the CPU; the CUDA update rule is invoked with (1, rows, columns). */
    function BuildForCuda(context: CudaContext): (r: CublasWeightingLayer)
      ensures r.name == ConcatenateNames(name, "weighting")
      ensures r.initialWeights == InitializedWeights(weightInitializationStrategy, numberOutputRows,
                                                     numberInputRows, numberInputRows * numberInputColumns)
      ensures r.numberInputRows == numberInputRows && r.numberOutputRows == numberOutputRows
      ensures r.maximumInputColumns == numberInputColumns
      ensures r.updateRule.Some? <==> optimizationStrategy.Some?
      ensures r.updateRule.Some? ==>
        && r.updateRule.value.numberParameters == 1
        && r.updateRule.value.numberRows == numberOutputRows && r.updateRule.value.numberColumns == numberInputRows
    {
      var weightingName := ConcatenateNames(name, "weighting");
      var initialWeights := InitializedWeights(weightInitializationStrategy, NumberWeightRows(), NumberWeightColumns(),
                                               MaximumNumberEntries());
      var updateRule := CudaUpdateRuleFor(optimizationStrategy, 1, NumberWeightRows(), NumberWeightColumns());
      CublasWeightingLayer(weightingName, numberInputRows, MaximumColumns(), numberOutputRows, initialWeights, updateRule)
    }
  }

  /**
   * The CPU and cuBLAS builds describe the same layer: same name, weights, input rows and
   * maximum columns, and update rules over the same matrix, present together or not at all.
   */
  lemma BuildsAgree(layer: WeightingLayer, context: CudaContext)
    ensures var cpu := layer.BuildForCpu(); var cuda := layer.BuildForCuda(context);
      && cpu.name == cuda.name && cpu.initialWeights == cuda.initialWeights
      && cpu.numberInputRows == cuda.numberInputRows && cpu.maximumInputColumns == cuda.maximumInputColumns
      && cpu.numberWeightRows == cuda.numberOutputRows
      && cpu.updateRule.Some? == cuda.updateRule.Some?
      && (cpu.updateRule.Some? ==>
           && cpu.updateRule.value.instruction == cuda.updateRule.value.instruction
           && cpu.updateRule.value.numberRows == cuda.updateRule.value.numberRows
           && cpu.updateRule.value.numberColumns == cuda.updateRule.value.numberColumns)
  {
  }

  /** `weightingLayer(numberInputRows, numberInputColumns, hasFixedLength, outputRows, ...)`: unnamed. */
  function UnnamedWeightingLayer(numberInputRows: int, numberInputColumns: int, hasFixedLength: bool, outputRows: int,
                                 initializationStrategy: InitializationStrategy,
                                 optimizationStrategy: Option<OptimizationInstruction> := None)
    : (r: WeightingLayer)
    ensures r.name == Unnamed
    ensures r.numberInputRows == numberInputRows && r.numberInputColumns == numberInputColumns
    ensures r.hasFixedLength == hasFixedLength && r.numberOutputRows == outputRows
    ensures r.weightInitializationStrategy == initializationStrategy && r.optimizationStrategy == optimizationStrategy
  {
    WeightingLayer(Unnamed, numberInputRows, numberInputColumns, hasFixedLength, outputRows,
                   initializationStrategy, optimizationStrategy)
  }

  /** `weightingLayer(name, inputDimension, outputDimension, ...)`: one column, of fixed length. */
  function VectorWeightingLayer(name: LayerName, inputDimension: int, outputDimension: int,
                                initializationStrategy: InitializationStrategy,
                                optimizationStrategy: Option<OptimizationInstruction> := None)
    : (r: WeightingLayer)
    ensures r.name == name && r.numberInputRows == inputDimension && r.numberOutputRows == outputDimension
    ensures r.numberInputColumns == 1 && r.hasFixedLength
    ensures r.weightInitializationStrategy == initializationStrategy && r.optimizationStrategy == optimizationStrategy
  {
    WeightingLayer(name, inputDimension, 1, true, outputDimension, initializationStrategy, optimizationStrategy)
  }

  /** `weightingLayer(inputDimension, outputDimension, ...)`: the vector overload without a name. */
  function UnnamedVectorWeightingLayer(inputDimension: int, outputDimension: int,
                                       initializationStrategy: InitializationStrategy,
                                       optimizationStrategy: Option<OptimizationInstruction> := None)
    : (r: WeightingLayer)
    ensures r == VectorWeightingLayer(Unnamed, inputDimension, outputDimension, initializationStrategy, optimizationStrategy)
  {
    VectorWeightingLayer(Unnamed, inputDimension, outputDimension, initializationStrategy, optimizationStrategy)
  }

  /** A vector weighting accepts exactly one column and spans `inputDimension` entries. */
  lemma VectorWeightingShape(name: LayerName, inputDimension: int, outputDimension: int,
                             initializationStrategy: InitializationStrategy,
                             optimizationStrategy: Option<OptimizationInstruction>)
    ensures var l := VectorWeightingLayer(name, inputDimension, outputDimension, initializationStrategy, optimizationStrategy);
      && l.BuildForCpu().minimumInputColumns == 1 && l.BuildForCpu().maximumInputColumns == 1
      && l.MaximumNumberEntries() == inputDimension
      && l.BuildForCpu().accumulator.size == outputDimension * inputDimension
  {
  }
}

/** The bias layer instruction and the CPU and cuBLAS layers it builds. */
module Bias {
  import opened Wrappers
  import opened Names
  import opened Instructions

  /** The arguments of `CpuBiasLayer(...)`. */
  datatype CpuBiasLayer = CpuBiasLayer(
    name: LayerName,
    numberInputRows: int,
    minimumInputColumns: int,
    maximumInputColumns: int,
    bias: ColumnVector,
    accumulator: DenseAccumulator,
    updateRule: Option<CpuUpdateRule>)

  /** The arguments of `CublasBiasLayer(...)` as this builder passes them, less the handle and the kernel factory. */
  datatype CublasBiasLayer = CublasBiasLayer(
    name: LayerName,
    numberInputRows: int,
    maximumInputColumns: int,
    bias: ColumnVector,
    updateRule: Option<CudaUpdateRule>,
    warpSize: int,
    maximumNumberThreadsPerBlock: int)

  /** `BiasLayer(...)`; the named `biasLayer(name, ...)` overload is this constructor. */
  datatype BiasLayer = BiasLayer(
    name: LayerName,
    numberInputRows: int,
    numberInputColumns: int,
    hasFixedLength: bool,
    initializationStrategy: InitializationStrategy,
    optimizationStrategy: Option<OptimizationInstruction>)
  {
    function MinimumColumns(): int {
      MinimumInputColumns(numberInputColumns, hasFixedLength)
    }

    function MaximumColumns(): int {
      numberInputColumns
    }

    /**
     * A bias of `numberInputRows` entries with an accumulator of its size, the name unchanged,
     * and a CPU update rule over a `numberInputRows` by 1 vector exactly when an optimisation is given.
     */
    function BuildForCpu(): (r: CpuBiasLayer)
      ensures r.name == name && r.numberInputRows == numberInputRows
      ensures r.bias == InitializedColumnVector(initializationStrategy, numberInputRows)
      ensures r.accumulator.size == r.bias.numberRows == numberInputRows
      ensures r.minimumInputColumns == (if hasFixedLength then numberInputColumns else 1)
      ensures r.maximumInputColumns == numberInputColumns
      ensures r.updateRule.Some? <==> optimizationStrategy.Some?
      ensures r.updateRule.Some? ==> r.updateRule.value.numberRows == numberInputRows && r.updateRule.value.numberColumns == 1
    {
      var bias := InitializedColumnVector(initializationStrategy, numberInputRows);
      var accumulator := DenseAccumulator(bias.numberRows);
      var updateRule := CpuUpdateRuleFor(optimizationStrategy, numberInputRows, 1);
      CpuBiasLayer(name, numberInputRows, MinimumColumns(), MaximumColumns(), bias, accumulator, updateRule)
    }

    /** The same bias as on the CPU, a CUDA update rule invoked with (1, rows, 1), and the context's limits. */
    function BuildForCuda(context: CudaContext): (r: CublasBiasLayer)
      ensures r.name == name && r.numberInputRows == numberInputRows && r.maximumInputColumns == numberInputColumns
      ensures r.bias == InitializedColumnVector(initializationStrategy, numberInputRows)
      ensures r.updateRule.Some? <==> optimizationStrategy.Some?
      ensures r.updateRule.Some? ==>
        && r.updateRule.value.numberParameters == 1
        && r.updateRule.value.numberRows == numberInputRows && r.updateRule.value.numberColumns == 1
      ensures r.warpSize == context.warpSize
      ensures r.maximumNumberThreadsPerBlock == context.maximumNumberOfThreadsPerBlock
    {
      var bias := InitializedColumnVector(initializationStrategy, numberInputRows);
      var updateRule := CudaUpdateRuleFor(optimizationStrategy, 1, numberInputRows, 1);
      CublasBiasLayer(name, numberInputRows, MaximumColumns(), bias, updateRule,
                      context.warpSize, context.maximumNumberOfThreadsPerBlock)
    }
  }

  /** `biasLayer(numberInputRows, numberInputColumns, hasFixedLength, ...)`: the name is null. */
  function UnnamedBiasLayer(numberInputRows: int, numberInputColumns: int, hasFixedLength: bool,
                            initializationStrategy: InitializationStrategy,
                            optimizationStrategy: Option<OptimizationInstruction> := None)
    : (r: BiasLayer)
    ensures r.name == Unnamed
    ensures r.numberInputRows == numberInputRows && r.numberInputColumns == numberInputColumns
    ensures r.hasFixedLength == hasFixedLength
    ensures r.initializationStrategy == initializationStrategy && r.optimizationStrategy == optimizationStrategy
  {
    BiasLayer(Unnamed, numberInputRows, numberInputColumns, hasFixedLength, initializationStrategy, optimizationStrategy)
  }
}

/** The projection layer instruction: a weighting, and a bias when a bias initialisation is given. */
module Projection {
  import opened Wrappers
  import opened Names
  import opened Instructions
  import Weighting
  import Bias

  /** The arguments of `CpuProjectionLayer(...)`. */
  datatype CpuProjectionLayer = CpuProjectionLayer(
    name: LayerName,
    weightingLayer: Weighting.CpuWeightingLayer,
    biasLayer: Option<Bias.CpuBiasLayer>)

  /**
   * The arguments this builder passes to `CublasBiasLayer(...)`, in its own order (less the
   * handle and the kernel factory): the thread limit, the rows, the maximum columns, the bias
   * and its update rule.
   */
  datatype CublasBiasArguments = CublasBiasArguments(
    name: LayerName,
    maximumNumberThreadsPerBlock: int,
    numberRows: int,
    maximumInputColumns: int,
    initializedBias: ColumnVector,
    updateRule: Option<CudaUpdateRule>)

  /** The arguments of `CublasProjectionLayer(...)`. */
  datatype CublasProjectionLayer = CublasProjectionLayer(
    name: LayerName,
    weightingLayer: Weighting.CublasWeightingLayer,
    biasLayer: Option<CublasBiasArguments>)

  /** `ProjectionLayer(...)`; the full `projectionLayer(name, rows, columns, ...)` overload is this constructor. */
  datatype ProjectionLayer = ProjectionLayer(
    name: LayerName,
    numberInputRows: int,
    numberInputColumns: int,
    hasFixedLength: bool,
    numberOutputRows: int,
    weightInitializationStrategy: InitializationStrategy,
    biasInitializationStrategy: Option<InitializationStrategy>,
    optimizationStrategy: Option<OptimizationInstruction>)
  {
    function MinimumColumns(): int {
      MinimumInputColumns(numberInputColumns, hasFixedLength)
    }

    function MaximumColumns(): int {
      numberInputColumns
    }

    function NumberWeightRows(): int {
      numberOutputRows
    }

    function NumberWeightColumns(): int {
      numberInputRows
    }

    function MaximumNumberEntries(): int {
      numberInputRows * MaximumColumns()
    }

    /**
     * The weighting `<name>.weighting` over a `numberOutputRows` by `numberInputRows` matrix, and,
     * exactly when a bias initialisation is given, the bias `<name>.bias` of `numberOutputRows`
     * entries; both accept the instruction's column range, and each has an update rule exactly
     * when an optimisation is given.
     */
    function BuildForCpu(): (r: CpuProjectionLayer)
      ensures r.name == name
      ensures r.weightingLayer.name == ConcatenateNames(name, "weighting")
      ensures r.weightingLayer.initialWeights.numberRows == numberOutputRows
      ensures r.weightingLayer.initialWeights.numberColumns == numberInputRows
      ensures r.weightingLayer.accumulator.size == numberOutputRows * numberInputRows
      ensures r.weightingLayer.updateRule.Some? <==> optimizationStrategy.Some?
      ensures r.biasLayer.Some? <==> biasInitializationStrategy.Some?
      ensures r.biasLayer.Some? ==>
        && r.biasLayer.value.name == ConcatenateNames(name, "bias")
        && r.biasLayer.value.numberInputRows == numberOutputRows
        && r.biasLayer.value.bias.numberRows == numberOutputRows
        && r.biasLayer.value.accumulator.size == numberOutputRows
        && r.biasLayer.value.minimumInputColumns == r.weightingLayer.minimumInputColumns
        && r.biasLayer.value.maximumInputColumns == r.weightingLayer.maximumInputColumns
        && (r.biasLayer.value.updateRule.Some? <==> optimizationStrategy.Some?)
    {
      var weightingName := ConcatenateNames(name, "weighting");
      var weights := InitializedWeights(weightInitializationStrategy, NumberWeightRows(), NumberWeightColumns(),
                                        MaximumNumberEntries());
      var weightAccumulator := DenseAccumulator(NumberWeightRows() * NumberWeightColumns());
      var weightingUpdateRule := CpuUpdateRuleFor(optimizationStrategy, NumberWeightRows(), NumberWeightColumns());
      var weightingLayer := Weighting.CpuWeightingLayer(weightingName, weights, numberInputRows, MinimumColumns(),
                                                        MaximumColumns(), NumberWeightRows(), weightAccumulator,
                                                        weightingUpdateRule);
      var biasLayer :=
        match biasInitializationStrategy
        case None => None
        case Some(strategy) =>
          var biasName := ConcatenateNames(name, "bias");
          var bias := InitializedColumnVector(strategy, numberOutputRows);
          var biasAccumulator := DenseAccumulator(bias.numberRows);
          var biasUpdateRule := CpuUpdateRuleFor(optimizationStrategy, bias.numberRows, 1);
          Some(Bias.CpuBiasLayer(biasName, NumberWeightRows(), MinimumColumns(), MaximumColumns(), bias,
                                 biasAccumulator, biasUpdateRule));
      CpuProjectionLayer(name, weightingLayer, biasLayer)
    }

    /**
     * The cuBLAS weighting `<name>.weighting` and, exactly when a bias initialisation is given,
     * the bias `<name>.bias` over `numberOutputRows` entries with a CUDA rule invoked with (1, rows, 1).
     */
    function BuildForCuda(context: CudaContext): (r: CublasProjectionLayer)
      ensures r.name == name
      ensures r.weightingLayer.name == ConcatenateNames(name, "weighting")
      ensures r.weightingLayer.numberOutputRows == numberOutputRows
      ensures r.biasLayer.Some? <==> biasInitializationStrategy.Some?
      ensures r.biasLayer.Some? ==>
        && r.biasLayer.value.name == ConcatenateNames(name, "bias")
        && r.biasLayer.value.numberRows == numberOutputRows
        && r.biasLayer.value.initializedBias.numberRows == numberOutputRows
        && r.biasLayer.value.maximumInputColumns == numberInputColumns
        && r.biasLayer.value.maximumNumberThreadsPerBlock == context.maximumNumberOfThreadsPerBlock
        && (r.biasLayer.value.updateRule.Some? <==> optimizationStrategy.Some?)
        && (r.biasLayer.value.updateRule.Some? ==>
             r.biasLayer.value.updateRule.value == CudaUpdateRule(optimizationStrategy.value, 1, numberOutputRows, 1))
    {
      var initialWeights := InitializedWeights(weightInitializationStrategy, NumberWeightRows(), NumberWeightColumns(),
                                               MaximumNumberEntries());
      var weightUpdateRule := CudaUpdateRuleFor(optimizationStrategy, 1, NumberWeightRows(), NumberWeightColumns());
      var weightingName := ConcatenateNames(name, "weighting");
      var weightingLayer := Weighting.CublasWeightingLayer(weightingName, numberInputRows, MaximumColumns(),
                                                           numberOutputRows, initialWeights, weightUpdateRule);
      var biasLayer :=
        match biasInitializationStrategy
        case None => None
        case Some(strategy) =>
          var biasName := ConcatenateNames(name, "bias");
          var initializedBias := InitializedColumnVector(strategy, numberOutputRows);
          var biasUpdateRule := CudaUpdateRuleFor(optimizationStrategy, 1, numberOutputRows, 1);
          Some(CublasBiasArguments(biasName, context.maximumNumberOfThreadsPerBlock, numberOutputRows,
                                   MaximumColumns(), initializedBias, biasUpdateRule));
      CublasProjectionLayer(name, weightingLayer, biasLayer)
    }

    /** The weighting instruction this projection's weighting is built as. */
    function WeightingPart(): (w: Weighting.WeightingLayer)
      ensures w.name == name
      ensures w.numberInputRows == numberInputRows && w.numberOutputRows == numberOutputRows
      ensures w.numberInputColumns == numberInputColumns && w.hasFixedLength == hasFixedLength
      ensures w.weightInitializationStrategy == weightInitializationStrategy
      ensures w.optimizationStrategy == optimizationStrategy
    {
      Weighting.WeightingLayer(name, numberInputRows, numberInputColumns, hasFixedLength, numberOutputRows,
                               weightInitializationStrategy, optimizationStrategy)
    }

    /** The bias instruction this projection's bias is built as, when there is one. */
    function BiasPart(): (b: Option<Bias.BiasLayer>)
      ensures b.Some? <==> biasInitializationStrategy.Some?
      ensures b.Some? ==> b.value.name == ConcatenateNames(name, "bias") && b.value.numberInputRows == numberOutputRows
    {
      match biasInitializationStrategy
      case None => None
      case Some(strategy) =>
        Some(Bias.BiasLayer(ConcatenateNames(name, "bias"), numberOutputRows, numberInputColumns, hasFixedLength,
                            strategy, optimizationStrategy))
    }
  }

  /**
   * On the CPU a projection builds exactly the layers a weighting instruction and a bias
   * instruction with the same arguments (the bias under `<name>.bias`, over the output rows) build.
   */
  lemma CpuBuildComposesSubLayers(p: ProjectionLayer)
    ensures p.BuildForCpu().weightingLayer == p.WeightingPart().BuildForCpu()
    ensures p.BuildForCpu().biasLayer ==
      match p.BiasPart()
      case None => None
      case Some(b) => Some(b.BuildForCpu())
  {
  }

  /**
   * With cuBLAS the weighting is again the weighting instruction's own build; the bias is given
   * its arguments in a different order than the bias instruction gives them, but the name, rows,
   * maximum columns, vector, update rule and thread limit agree.
   */
  lemma CudaBuildComposesSubLayers(p: ProjectionLayer, context: CudaContext)
    ensures p.BuildForCuda(context).weightingLayer == p.WeightingPart().BuildForCuda(context)
    ensures p.BuildForCuda(context).biasLayer.Some? ==>
      var mine := p.BuildForCuda(context).biasLayer.value;
      var theirs := p.BiasPart().value.BuildForCuda(context);
      && mine.name == theirs.name && mine.numberRows == theirs.numberInputRows
      && mine.maximumInputColumns == theirs.maximumInputColumns && mine.initializedBias == theirs.bias
      && mine.updateRule == theirs.updateRule
      && mine.maximumNumberThreadsPerBlock == theirs.maximumNumberThreadsPerBlock
  {
  }

  /** `projectionLayer(numberInputRows, numberInputColumns, hasFixedLength, outputRows, ...)`: unnamed. */
  function UnnamedProjectionLayer(numberInputRows: int, numberInputColumns: int, hasFixedLength: bool, outputRows: int,
                                  weightInitializationStrategy: InitializationStrategy,
                                  biasInitializationStrategy: Option<InitializationStrategy> := None,
                                  optimizationStrategy: Option<OptimizationInstruction> := None)
    : (r: ProjectionLayer)
    ensures r.name == Unnamed
    ensures r.numberInputRows == numberInputRows && r.numberInputColumns == numberInputColumns
    ensures r.hasFixedLength == hasFixedLength && r.numberOutputRows == outputRows
    ensures r.weightInitializationStrategy == weightInitializationStrategy
    ensures r.biasInitializationStrategy == biasInitializationStrategy && r.optimizationStrategy == optimizationStrategy
  {
    ProjectionLayer(Unnamed, numberInputRows, numberInputColumns, hasFixedLength, outputRows,
                    weightInitializationStrategy, biasInitializationStrategy, optimizationStrategy)
  }

  /** `projectionLayer(name, inputDimension, outputDimension, ...)`: one column, of fixed length. */
  function VectorProjectionLayer(name: LayerName, inputDimension: int, outputDimension: int,
                                 weightInitializationStrategy: InitializationStrategy,
                                 biasInitializationStrategy: Option<InitializationStrategy> := None,
                                 optimizationStrategy: Option<OptimizationInstruction> := None)
    : (r: ProjectionLayer)
    ensures r.name == name && r.numberInputRows == inputDimension && r.numberOutputRows == outputDimension
    ensures r.numberInputColumns == 1 && r.hasFixedLength
    ensures r.weightInitializationStrategy == weightInitializationStrategy
    ensures r.biasInitializationStrategy == biasInitializationStrategy && r.optimizationStrategy == optimizationStrategy
  {
    ProjectionLayer(name, inputDimension, 1, true, outputDimension,
                    weightInitializationStrategy, biasInitializationStrategy, optimizationStrategy)
  }

  /** `projectionLayer(inputDimension, outputDimension, ...)`: the vector overload without a name. */
  function UnnamedVectorProjectionLayer(inputDimension: int, outputDimension: int,
                                        weightInitializationStrategy: InitializationStrategy,
                                        biasInitializationStrategy: Option<InitializationStrategy> := None,
                                        optimizationStrategy: Option<OptimizationInstruction> := None)
    : (r: ProjectionLayer)
    ensures r == VectorProjectionLayer(Unnamed, inputDimension, outputDimension, weightInitializationStrategy,
                                       biasInitializationStrategy, optimizationStrategy)
  {
    VectorProjectionLayer(Unnamed, inputDimension, outputDimension, weightInitializationStrategy,
                          biasInitializationStrategy, optimizationStrategy)
  }

  /** A vector projection's sub-layers accept exactly one column; without a bias initialisation there is no bias. */
  lemma VectorProjectionShape(name: LayerName, inputDimension: int, outputDimension: int,
                              weightInitializationStrategy: InitializationStrategy,
                              optimizationStrategy: Option<OptimizationInstruction>)
    ensures var p := VectorProjectionLayer(name, inputDimension, outputDimension, weightInitializationStrategy,
                                           None, optimizationStrategy);
      && p.BuildForCpu().weightingLayer.minimumInputColumns == 1
      && p.BuildForCpu().weightingLayer.maximumInputColumns == 1
      && p.BuildForCpu().biasLayer == None
  {
  }
}
