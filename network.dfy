/**
 * The host-side network: an entry point followed by an ordered chain of forward layers,
 * the forward and backward propagators that drive the chain, and the network's
 * acquire/release lifecycle. Every call made on a component is appended to a shared
 * ghost trace, so that order and argument threading can be stated.
 */
module Network {
  import opened Matrices

  /** One call on a component of the chain, with the arguments it got and what it produced. */
  datatype Event =
    | EntryForward(sample: Matrix, outputColumns: int, output: FloatArray)
    | LayerForward(layer: CpuForwardLayer, withinBatch: int, inputColumns: int, input: FloatArray,
                   isTraining: bool, outputColumns: int, output: FloatArray)
    | LayerBackward(layer: CpuForwardLayer, withinBatch: int, chain: FloatArray, result: FloatArray)
    | EntryBackward(chain: FloatArray, result: FloatArray)
    | EntryAcquired(maximumBatchSize: int)
    | LayerAcquired(layer: CpuForwardLayer, maximumBatchSize: int)
    | LayerReleased(layer: CpuForwardLayer)
    | EntryReleased

  /** The shared call log. */
  class Trace {
    ghost var events: seq<Event>

    constructor ()
      ensures events == []
    {
      events := [];
    }
  }

  /**
   * The graph's source node. What it computes is the uninterpreted `forwardKernel` and
   * `backwardKernel`; whether it implements `Optimizable` and `Resourceful` is fixed.
   */
  class CpuEntryPoint {
    const trace: Trace
    const optimizable: bool
    const resourceful: bool
    const forwardKernel: Matrix -> (int, FloatArray)
    const backwardKernel: FloatArray -> FloatArray
    var numberOutputColumns: int
    var forwardResult: FloatArray

    constructor (trace: Trace, optimizable: bool, resourceful: bool,
                 forwardKernel: Matrix -> (int, FloatArray), backwardKernel: FloatArray -> FloatArray)
      ensures this.trace == trace && this.optimizable == optimizable && this.resourceful == resourceful
      ensures this.forwardKernel == forwardKernel && this.backwardKernel == backwardKernel
    {
      this.trace := trace;
      this.optimizable := optimizable;
      this.resourceful := resourceful;
      this.forwardKernel := forwardKernel;
      this.backwardKernel := backwardKernel;
      numberOutputColumns := 0;
      forwardResult := [];
    }

    method Forward(input: Matrix)
      modifies this, trace
      ensures (numberOutputColumns, forwardResult) == forwardKernel(input)
      ensures trace.events == old(trace.events) + [EntryForward(input, numberOutputColumns, forwardResult)]
    {
      numberOutputColumns, forwardResult := forwardKernel(input).0, forwardKernel(input).1;
      trace.events := trace.events + [EntryForward(input, numberOutputColumns, forwardResult)];
    }

    method Backward(chain: FloatArray) returns (result: FloatArray)
      modifies trace
      ensures result == backwardKernel(chain)
      ensures trace.events == old(trace.events) + [EntryBackward(chain, result)]
    {
      result := backwardKernel(chain);
      trace.events := trace.events + [EntryBackward(chain, result)];
    }

    /** `acquireRecursively(entryPoint, maximumBatchSize)`. */
    method AcquireRecursively(maximumBatchSize: int)
      modifies trace
      ensures trace.events == old(trace.events) + [EntryAcquired(maximumBatchSize)]
    {
      trace.events := trace.events + [EntryAcquired(maximumBatchSize)];
    }

    /** `Resourceful.release`. */
    method Release()
      modifies trace
      ensures trace.events == old(trace.events) + [EntryReleased]
    {
      trace.events := trace.events + [EntryReleased];
    }
  }

  /** A forward layer of the chain; its arithmetic is the uninterpreted pair of kernels. */
  class CpuForwardLayer {
    const trace: Trace
    const optimizable: bool
    const forwardKernel: (int, int, FloatArray, bool) -> (int, FloatArray)
    const backwardKernel: (int, FloatArray) -> FloatArray
    var numberOutputColumns: int
    var forwardResult: FloatArray

    constructor (trace: Trace, optimizable: bool,
                 forwardKernel: (int, int, FloatArray, bool) -> (int, FloatArray),
                 backwardKernel: (int, FloatArray) -> FloatArray)
      ensures this.trace == trace && this.optimizable == optimizable
      ensures this.forwardKernel == forwardKernel && this.backwardKernel == backwardKernel
    {
      this.trace := trace;
      this.optimizable := optimizable;
      this.forwardKernel := forwardKernel;
      this.backwardKernel := backwardKernel;
      numberOutputColumns := 0;
      forwardResult := [];
    }

    method Forward(withinBatch: int, numberInputColumns: int, input: FloatArray, isTraining: bool)
      modifies this, trace
      ensures (numberOutputColumns, forwardResult) == forwardKernel(withinBatch, numberInputColumns, input, isTraining)
      ensures trace.events == old(trace.events) +
        [LayerForward(this, withinBatch, numberInputColumns, input, isTraining, numberOutputColumns, forwardResult)]
    {
      var out := forwardKernel(withinBatch, numberInputColumns, input, isTraining);
      numberOutputColumns, forwardResult := out.0, out.1;
      trace.events := trace.events +
        [LayerForward(this, withinBatch, numberInputColumns, input, isTraining, numberOutputColumns, forwardResult)];
    }

    method Backward(withinBatch: int, chain: FloatArray) returns (result: FloatArray)
      modifies trace
      ensures result == backwardKernel(withinBatch, chain)
      ensures trace.events == old(trace.events) + [LayerBackward(this, withinBatch, chain, result)]
    {
      result := backwardKernel(withinBatch, chain);
      trace.events := trace.events + [LayerBackward(this, withinBatch, chain, result)];
    }

    /** `acquireRecursively(layer, maximumBatchSize)`. */
    method AcquireRecursively(maximumBatchSize: int)
      modifies trace
      ensures trace.events == old(trace.events) + [LayerAcquired(this, maximumBatchSize)]
    {
      trace.events := trace.events + [LayerAcquired(this, maximumBatchSize)];
    }

    /** `releaseRecursively(layer, CpuForwardLayer::class.java)`. */
    method ReleaseRecursively()
      modifies trace
      ensures trace.events == old(trace.events) + [LayerReleased(this)]
    {
      trace.events := trace.events + [LayerReleased(this)];
    }
  }

  /** Every component writes to the entry point's trace. */
  predicate SharesTrace(entryPoint: CpuEntryPoint, layers: seq<CpuForwardLayer>) {
    forall i :: 0 <= i < |layers| ==> layers[i].trace == entryPoint.trace
  }

  // ---------------------------------------------------------------------------------------
  // Forward propagation

  /**
   * `calls` is one forward pass: the entry point's forward on `input`, then one forward per
   * layer in index order, where layer i gets the previous call's output columns and output
   * and the unchanged `withinBatch` and `isTraining`.
   */
  ghost predicate ForwardCalls(calls: seq<Event>, layers: seq<CpuForwardLayer>, withinBatch: int,
                               input: Matrix, isTraining: bool)
  {
    && |calls| == |layers| + 1
    && calls[0].EntryForward? && calls[0].sample == input
    && (forall j :: 1 <= j < |calls| ==> calls[j].LayerForward?)
    && forall i :: 0 <= i < |layers| ==>
         calls[i + 1] == LayerForward(layers[i], withinBatch, calls[i].outputColumns, calls[i].output,
                                      isTraining, calls[i + 1].outputColumns, calls[i + 1].output)
  }

  class CpuForwardPropagator {
    const entryPoint: CpuEntryPoint
    const layers: seq<CpuForwardLayer>

    constructor (entryPoint: CpuEntryPoint, layers: seq<CpuForwardLayer>)
      ensures this.entryPoint == entryPoint && this.layers == layers
    {
      this.entryPoint := entryPoint;
      this.layers := layers;
    }

    /** Returns the last layer's forward result, or the entry point's when there is no layer. */
    method Forward(withinBatch: int, input: Matrix, isTraining: bool) returns (result: FloatArray)
      requires SharesTrace(entryPoint, layers)
      modifies entryPoint, layers, entryPoint.trace
      ensures |entryPoint.trace.events| == |old(entryPoint.trace.events)| + |layers| + 1
      ensures entryPoint.trace.events[..|old(entryPoint.trace.events)|] == old(entryPoint.trace.events)
      ensures ForwardCalls(entryPoint.trace.events[|old(entryPoint.trace.events)|..], layers, withinBatch, input, isTraining)
      ensures result == entryPoint.trace.events[|old(entryPoint.trace.events)|..][|layers|].output
    {
      var trace := entryPoint.trace;
      ghost var start := |trace.events|;
      entryPoint.Forward(input);
      var numberColumns, previousResult := entryPoint.numberOutputColumns, entryPoint.forwardResult;
      for i := 0 to |layers|
        invariant |trace.events| == start + i + 1
        invariant trace.events[..start] == old(trace.events)
        invariant ForwardCalls(trace.events[start..], layers[..i], withinBatch, input, isTraining)
        invariant numberColumns == trace.events[start..][i].outputColumns
        invariant previousResult == trace.events[start..][i].output
      {
        ghost var before := trace.events;
        layers[i].Forward(withinBatch, numberColumns, previousResult, isTraining);
        assert trace.events[start..] == before[start..] + [trace.events[start + i + 1]];
        numberColumns, previousResult := layers[i].numberOutputColumns, layers[i].forwardResult;
      }
      assert layers[..|layers|] == layers;
      result := previousResult;
    }
  }

  // ---------------------------------------------------------------------------------------
  // Backward propagation

  /** The gradient fed to the k-th backward call of a pass that started with `lossGradient`. */
  ghost function ChainAt(calls: seq<Event>, k: nat, lossGradient: FloatArray): FloatArray
    requires k <= |calls|
    requires forall j :: 0 <= j < k ==> calls[j].LayerBackward?
  {
    if k == 0 then lossGradient else calls[k - 1].result
  }

  /**
   * `calls` is one backward pass: layers n-1 down to 0, each fed the previous call's result
   * (the loss gradient for the last layer), then the entry point's backward, exactly once, last.
   */
  ghost predicate BackwardCalls(calls: seq<Event>, layers: seq<CpuForwardLayer>, withinBatch: int,
                                lossGradient: FloatArray)
  {
    && |calls| == |layers| + 1
    && (forall k :: 0 <= k < |layers| ==>
          calls[k].LayerBackward? && calls[k].layer == layers[|layers| - 1 - k] && calls[k].withinBatch == withinBatch)
    && (forall k :: 0 <= k < |layers| ==> calls[k].chain == ChainAt(calls, k, lossGradient))
    && calls[|layers|].EntryBackward?
    && calls[|layers|].chain == ChainAt(calls, |layers|, lossGradient)
  }

  class CpuBackwardPropagator {
    const entryPoint: CpuEntryPoint
    const layers: seq<CpuForwardLayer>
    const numberLayers: int

    constructor (entryPoint: CpuEntryPoint, layers: seq<CpuForwardLayer>)
      ensures this.entryPoint == entryPoint && this.layers == layers && numberLayers == |layers|
    {
      this.entryPoint := entryPoint;
      this.layers := layers;
      numberLayers := |layers|;
    }

    /** Returns the entry point's backward result. */
    method Backward(withinBatch: int, lossGradient: FloatArray) returns (result: FloatArray)
      requires SharesTrace(entryPoint, layers) && numberLayers == |layers|
      modifies entryPoint.trace
      ensures |entryPoint.trace.events| == |old(entryPoint.trace.events)| + |layers| + 1
      ensures entryPoint.trace.events[..|old(entryPoint.trace.events)|] == old(entryPoint.trace.events)
      ensures BackwardCalls(entryPoint.trace.events[|old(entryPoint.trace.events)|..], layers, withinBatch, lossGradient)
      ensures result == entryPoint.trace.events[|entryPoint.trace.events| - 1].result
    {
      var trace := entryPoint.trace;
      ghost var start := |trace.events|;
      var chain := lossGradient;
      for indexLayer := numberLayers downto 0
        invariant |trace.events| == start + (numberLayers - indexLayer)
        invariant trace.events[..start] == old(trace.events)
        invariant forall k :: start <= k < |trace.events| ==>
          trace.events[k].LayerBackward? && trace.events[k].layer == layers[numberLayers - 1 - (k - start)]
          && trace.events[k].withinBatch == withinBatch
        invariant forall k :: start <= k < |trace.events| ==>
          trace.events[k].chain == ChainAt(trace.events[start..], k - start, lossGradient)
        invariant chain == ChainAt(trace.events[start..], |trace.events| - start, lossGradient)
      {
        ghost var before := trace.events;
        var layer := layers[indexLayer];
        chain := layer.Backward(withinBatch, chain);
        assert trace.events[start..] == before[start..] + [trace.events[|trace.events| - 1]];
        assert forall k :: start <= k < |before| ==> trace.events[k] == before[k];
      }
      ghost var before := trace.events;
      result := entryPoint.Backward(chain);
      assert trace.events[start..] == before[start..] + [trace.events[|trace.events| - 1]];
      assert forall k :: start <= k < |before| ==> trace.events[k] == before[k];
    }
  }

  // ---------------------------------------------------------------------------------------
  // Optimizables

  /** An element of `listOf(entryPoint).plus(layers)`. */
  datatype Component = Entry(entry: CpuEntryPoint) | Layer(layer: CpuForwardLayer)
  {
    /** The component is an instance of `Optimizable`. */
    predicate IsOptimizable() {
      match this
      case Entry(e) => e.optimizable
      case Layer(l) => l.optimizable
    }
  }

  /** `listOf(entryPoint).plus(layers)`. */
  function Components(entryPoint: CpuEntryPoint, layers: seq<CpuForwardLayer>): (r: seq<Component>)
    ensures |r| == |layers| + 1 && r[0] == Entry(entryPoint)
    ensures forall i :: 0 <= i < |layers| ==> r[i + 1] == Layer(layers[i])
  {
    [Entry(entryPoint)] + seq(|layers|, i requires 0 <= i < |layers| => Layer(layers[i]))
  }

  /** `filterIsInstance(Optimizable::class.java)`. */
  function KeepOptimizable(cs: seq<Component>): seq<Component> {
    if cs == [] then []
    else (if cs[0].IsOptimizable() then [cs[0]] else []) + KeepOptimizable(cs[1..])
  }

  /** `reversed()`. */
  function Reversed(cs: seq<Component>): seq<Component> {
    if cs == [] then [] else Reversed(cs[1..]) + [cs[0]]
  }

  /** The network's `optimizables`. */
  function Optimizables(entryPoint: CpuEntryPoint, layers: seq<CpuForwardLayer>): seq<Component> {
    Reversed(KeepOptimizable(Components(entryPoint, layers)))
  }

  /** The filter keeps exactly the optimizable components. */
  lemma {:induction false} KeepOptimizableMembers(cs: seq<Component>)
    ensures forall c :: c in KeepOptimizable(cs) <==> c in cs && c.IsOptimizable()
  {
    if cs != [] {
      KeepOptimizableMembers(cs[1..]);
      assert cs == [cs[0]] + cs[1..];
    }
  }

  /** The filter distributes over concatenation, so it keeps the relative order. */
  lemma {:induction false} KeepOptimizableAppend(xs: seq<Component>, ys: seq<Component>)
    ensures KeepOptimizable(xs + ys) == KeepOptimizable(xs) + KeepOptimizable(ys)
  {
    if xs == [] {
      assert xs + ys == ys;
    } else {
      assert (xs + ys)[1..] == xs[1..] + ys;
      KeepOptimizableAppend(xs[1..], ys);
    }
  }

  /** `reversed()` puts element k at position |s| - 1 - k. */
  lemma {:induction false} ReversedAt(cs: seq<Component>)
    ensures |Reversed(cs)| == |cs|
    ensures forall k :: 0 <= k < |cs| ==> Reversed(cs)[k] == cs[|cs| - 1 - k]
  {
    if cs != [] {
      ReversedAt(cs[1..]);
    }
  }

  lemma {:induction false} ReversedAppend(xs: seq<Component>, ys: seq<Component>)
    ensures Reversed(xs + ys) == Reversed(ys) + Reversed(xs)
  {
    if xs == [] {
      assert xs + ys == ys;
    } else {
      assert (xs + ys)[1..] == xs[1..] + ys;
      ReversedAppend(xs[1..], ys);
    }
  }

  /** Filtering after reversing gives the same list as reversing after filtering. */
  lemma {:induction false} KeepOptimizableReversed(cs: seq<Component>)
    ensures KeepOptimizable(Reversed(cs)) == Reversed(KeepOptimizable(cs))
  {
    if cs != [] {
      KeepOptimizableReversed(cs[1..]);
      KeepOptimizableAppend(Reversed(cs[1..]), [cs[0]]);
      assert [cs[0]][1..] == [];
      var head := if cs[0].IsOptimizable() then [cs[0]] else [];
      ReversedAppend(head, KeepOptimizable(cs[1..]));
      assert Reversed(head) == head by {
        if head != [] { assert head[1..] == []; }
      }
    }
  }

  /**
   * `optimizables` holds exactly the optimizable components, in the reverse of chain order:
   * it is the reversed chain (last layer first, entry point last) with the others dropped.
   */
  lemma OptimizablesSpec(entryPoint: CpuEntryPoint, layers: seq<CpuForwardLayer>)
    ensures forall c :: c in Optimizables(entryPoint, layers) <==>
      c in Components(entryPoint, layers) && c.IsOptimizable()
    ensures Optimizables(entryPoint, layers) == KeepOptimizable(Reversed(Components(entryPoint, layers)))
  {
    var cs := Components(entryPoint, layers);
    KeepOptimizableMembers(cs);
    ReversedAt(KeepOptimizable(cs));
    KeepOptimizableReversed(cs);
    forall c ensures c in Reversed(KeepOptimizable(cs)) <==> c in KeepOptimizable(cs) {
      var f := KeepOptimizable(cs);
      if c in f {
        var k :| 0 <= k < |f| && f[k] == c;
        assert Reversed(f)[|f| - 1 - k] == c;
      }
    }
  }

  /** An optimizable entry point comes last in `optimizables`. */
  lemma OptimizablesEndWithEntry(entryPoint: CpuEntryPoint, layers: seq<CpuForwardLayer>)
    requires entryPoint.optimizable
    ensures |Optimizables(entryPoint, layers)| > 0
    ensures Optimizables(entryPoint, layers)[|Optimizables(entryPoint, layers)| - 1] == Entry(entryPoint)
  {
    var cs := Components(entryPoint, layers);
    assert cs == [cs[0]] + cs[1..];
    assert KeepOptimizable(cs) == [Entry(entryPoint)] + KeepOptimizable(cs[1..]);
    ReversedAt(KeepOptimizable(cs));
  }

  /** When the last layer is optimizable it comes first in `optimizables`. */
  lemma OptimizablesStartWithLastLayer(entryPoint: CpuEntryPoint, layers: seq<CpuForwardLayer>)
    requires |layers| > 0 && layers[|layers| - 1].optimizable
    ensures |Optimizables(entryPoint, layers)| > 0
    ensures Optimizables(entryPoint, layers)[0] == Layer(layers[|layers| - 1])
  {
    var cs := Components(entryPoint, layers);
    var n := |cs|;
    assert cs == cs[..n - 1] + [cs[n - 1]];
    KeepOptimizableAppend(cs[..n - 1], [cs[n - 1]]);
    assert [cs[n - 1]][1..] == [];
    assert KeepOptimizable([cs[n - 1]]) == [cs[n - 1]];
    var f := KeepOptimizable(cs);
    ReversedAt(f);
  }

  // ---------------------------------------------------------------------------------------
  // The network

  ghost function LayerAcquisitions(layers: seq<CpuForwardLayer>, maximumBatchSize: int): (r: seq<Event>)
    ensures |r| == |layers|
    ensures forall i :: 0 <= i < |layers| ==> r[i] == LayerAcquired(layers[i], maximumBatchSize)
  {
    if layers == [] then []
    else LayerAcquisitions(layers[..|layers| - 1], maximumBatchSize) + [LayerAcquired(layers[|layers| - 1], maximumBatchSize)]
  }

  ghost function LayerReleases(layers: seq<CpuForwardLayer>): (r: seq<Event>)
    ensures |r| == |layers|
    ensures forall i :: 0 <= i < |layers| ==> r[i] == LayerReleased(layers[i])
  {
    if layers == [] then [] else LayerReleases(layers[..|layers| - 1]) + [LayerReleased(layers[|layers| - 1])]
  }

  class Network {
    const maximumBatchSize: int
    const entryPoint: CpuEntryPoint
    const layers: seq<CpuForwardLayer>
    const optimizables: seq<Component>
    const forwardPropagator: CpuForwardPropagator
    const backwardPropagator: CpuBackwardPropagator

    /**
     * Built from the already-built entry point and layers; construction acquires the entry
     * point and then every layer in order, each with `maximumBatchSize`.
     */
    constructor (maximumBatchSize: int, entryPoint: CpuEntryPoint, layers: seq<CpuForwardLayer>)
      requires SharesTrace(entryPoint, layers)
      modifies entryPoint.trace
      ensures this.maximumBatchSize == maximumBatchSize && this.entryPoint == entryPoint && this.layers == layers
      ensures optimizables == Optimizables(entryPoint, layers)
      ensures forwardPropagator.entryPoint == entryPoint && forwardPropagator.layers == layers
      ensures backwardPropagator.entryPoint == entryPoint && backwardPropagator.layers == layers
      ensures backwardPropagator.numberLayers == |layers|
      ensures entryPoint.trace.events ==
        old(entryPoint.trace.events) + [EntryAcquired(maximumBatchSize)] + LayerAcquisitions(layers, maximumBatchSize)
    {
      this.maximumBatchSize := maximumBatchSize;
      this.entryPoint := entryPoint;
      this.layers := layers;
      optimizables := Optimizables(entryPoint, layers);
      forwardPropagator := new CpuForwardPropagator(entryPoint, layers);
      backwardPropagator := new CpuBackwardPropagator(entryPoint, layers);
      new;
      var trace := entryPoint.trace;
      entryPoint.AcquireRecursively(maximumBatchSize);
      for i := 0 to |layers|
        invariant trace.events ==
          old(trace.events) + [EntryAcquired(maximumBatchSize)] + LayerAcquisitions(layers[..i], maximumBatchSize)
      {
        layers[i].AcquireRecursively(maximumBatchSize);
        assert layers[..i + 1][..i] == layers[..i];
      }
      assert layers[..|layers|] == layers;
    }

    /** Releases every layer in order, then the entry point only when it is `Resourceful`. */
    method Free()
      requires SharesTrace(entryPoint, layers)
      modifies entryPoint.trace
      ensures entryPoint.trace.events == old(entryPoint.trace.events) + LayerReleases(layers) +
        (if entryPoint.resourceful then [EntryReleased] else [])
    {
      var trace := entryPoint.trace;
      for i := 0 to |layers|
        invariant trace.events == old(trace.events) + LayerReleases(layers[..i])
      {
        layers[i].ReleaseRecursively();
        assert layers[..i + 1][..i] == layers[..i];
      }
      assert layers[..|layers|] == layers;
      if entryPoint.resourceful {
        entryPoint.Release();
      }
    }
  }
}
