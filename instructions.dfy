/**
 * What the layer builders pass along without looking inside: initialisation strategies,
 * optimisation instructions and the update rules they produce, initialised parameters,
 * accumulators and the CUDA context. Each is kept as the arguments it was made from.
 */
module Instructions {
  import opened Wrappers

  /** An `InitializationStrategy`; which one it is does not matter to the builders. */
  datatype InitializationStrategy = InitializationStrategy(id: nat)

  /** An `OptimizationInstruction`. */
  datatype OptimizationInstruction = OptimizationInstruction(id: nat)

  /** `instruction.buildForCpu().invoke(numberRows, numberColumns)`. */
  datatype CpuUpdateRule = CpuUpdateRule(instruction: OptimizationInstruction, numberRows: int, numberColumns: int)

  /** `instruction.buildForCuda(context).invoke(numberParameters, numberRows, numberColumns)`. */
  datatype CudaUpdateRule =
    CudaUpdateRule(instruction: OptimizationInstruction, numberParameters: int, numberRows: int, numberColumns: int)

  /** `initializeWeights(strategy, numberRows, numberColumns, numberEntries)`. */
  datatype Weights = InitializedWeights(strategy: InitializationStrategy, numberRows: int, numberColumns: int, numberEntries: int)

  /** `initializeColumnVector(strategy, numberRows)`: a vector of `numberRows` entries. */
  datatype ColumnVector = InitializedColumnVector(strategy: InitializationStrategy, numberRows: int)

  /** `DenseAccumulator(size)`. */
  datatype DenseAccumulator = DenseAccumulator(size: int)

  /** The parts of a `CudaContext` the builders read. */
  datatype CudaContext = CudaContext(warpSize: int, maximumNumberOfThreadsPerBlock: int)

  /** `optimization?.buildForCpu()?.invoke(numberRows, numberColumns)`: a rule exactly when there is an instruction. */
  function CpuUpdateRuleFor(optimization: Option<OptimizationInstruction>, numberRows: int, numberColumns: int)
    : (r: Option<CpuUpdateRule>)
    ensures r.Some? <==> optimization.Some?
    ensures r.Some? ==> r.value.instruction == optimization.value
    ensures r.Some? ==> r.value.numberRows == numberRows && r.value.numberColumns == numberColumns
  {
    match optimization
    case None => None
    case Some(instruction) => Some(CpuUpdateRule(instruction, numberRows, numberColumns))
  }

  /** `optimization?.buildForCuda(context)?.invoke(numberParameters, numberRows, numberColumns)`. */
  function CudaUpdateRuleFor(optimization: Option<OptimizationInstruction>, numberParameters: int,
                             numberRows: int, numberColumns: int)
    : (r: Option<CudaUpdateRule>)
    ensures r.Some? <==> optimization.Some?
    ensures r.Some? ==> r.value.instruction == optimization.value && r.value.numberParameters == numberParameters
    ensures r.Some? ==> r.value.numberRows == numberRows && r.value.numberColumns == numberColumns
  {
    match optimization
    case None => None
    case Some(instruction) => Some(CudaUpdateRule(instruction, numberParameters, numberRows, numberColumns))
  }

  /** A layer of fixed length accepts exactly `numberInputColumns` columns; otherwise anything from one column up. */
  function MinimumInputColumns(numberInputColumns: int, hasFixedLength: bool): (m: int)
    ensures hasFixedLength ==> m == numberInputColumns
    ensures !hasFixedLength ==> m == 1
  {
    if hasFixedLength then numberInputColumns else 1
  }

  /**
   * With at least one input column the accepted range is never empty, and it is a single
   * value exactly when the length is fixed (or the maximum is one).
   */
  lemma ColumnRangeNonEmpty(numberInputColumns: int, hasFixedLength: bool)
    requires numberInputColumns >= 1
    ensures 1 <= MinimumInputColumns(numberInputColumns, hasFixedLength) <= numberInputColumns
    ensures MinimumInputColumns(numberInputColumns, hasFixedLength) == numberInputColumns
      <==> hasFixedLength || numberInputColumns == 1
  {
  }
}
