/** Choosing the CUDA activation layer for an activation function. */
module Activation {
  import opened Wrappers
  import opened Names

  /**
   * `ActivationFunction`. The four variants the CUDA dispatch knows are named; every other
   * variant of the enum is `Other`, identified by its name.
   */
  datatype ActivationFunction = Identity | Sigmoid | ReLU | Softmax | Other(variant: string)

  /** The instruction each `...Layer(name[, dimension])` builder returns. */
  datatype CudaActivationLayerInstruction =
    | IdentityLayer(name: LayerName)
    | SigmoidLayer(name: LayerName, dimension: int)
    | ReluLayer(name: LayerName, dimension: int)
    | SoftmaxLayer(name: LayerName, dimension: int)
  {
    /** The activation function an instruction applies. */
    function Function(): (f: ActivationFunction)
      ensures !f.Other?
    {
      match this
      case IdentityLayer(_) => Identity
      case SigmoidLayer(_, _) => Sigmoid
      case ReluLayer(_, _) => ReLU
      case SoftmaxLayer(_, _) => Softmax
    }

    /** The dimension it was built with; the identity layer takes none. */
    function Dimension(): (d: Option<int>)
      ensures d.None? <==> IdentityLayer?
    {
      if IdentityLayer? then None else Some(dimension)
    }
  }

  /**
   * `cudaActivationLayer(name, activation, dimension)`: the layer for the activation, built with the
   * name and (except for the identity) the dimension; any other activation is not implemented.
   */
  function CudaActivationLayer(name: LayerName, activation: ActivationFunction, dimension: int)
    : (r: Result<CudaActivationLayerInstruction, KotlinError>)
    ensures r.Failure? <==> activation.Other?
    ensures r.Failure? ==> r.error == NotImplementedError
    ensures r.Success? ==> r.value.Function() == activation && r.value.name == name
    ensures r.Success? ==> r.value.Dimension() == if activation == Identity then None else Some(dimension)
  {
    match activation
    case Identity => Success(IdentityLayer(name))
    case Sigmoid => Success(SigmoidLayer(name, dimension))
    case ReLU => Success(ReluLayer(name, dimension))
    case Softmax => Success(SoftmaxLayer(name, dimension))
    case Other(_) => Failure(NotImplementedError)
  }

  /**
   * The dispatch loses nothing: every instruction is what the dispatch returns for its own
   * name, activation and dimension (any dimension for the identity), so distinct supported
   * arguments give distinct layers.
   */
  lemma DispatchRoundTrip(layer: CudaActivationLayerInstruction, dimension: int)
    requires layer.Dimension().Some? ==> dimension == layer.Dimension().value
    ensures CudaActivationLayer(layer.name, layer.Function(), dimension) == Success(layer)
  {
  }

  /** Two supported dispatches give the same layer only for the same name, activation and (where used) dimension. */
  lemma DispatchInjective(name: LayerName, activation: ActivationFunction, dimension: int,
                          otherName: LayerName, otherActivation: ActivationFunction, otherDimension: int)
    requires CudaActivationLayer(name, activation, dimension).Success?
    requires CudaActivationLayer(name, activation, dimension) == CudaActivationLayer(otherName, otherActivation, otherDimension)
    ensures name == otherName && activation == otherActivation
    ensures activation != Identity ==> dimension == otherDimension
  {
    var layer := CudaActivationLayer(name, activation, dimension).value;
    assert layer.Function() == activation;
  }
}
