/**
 * The device input cache: three maps keyed by batch id, holding the uploaded batch, the
 * device array of column counts and the total number of columns. There is no eviction;
 * `Free` releases every pointer and empties all three maps.
 */
module Memory {
  import opened Wrappers
  import opened Devices

  /** Some element of a non-empty key set (the iteration order of a hash map is not modelled). */
  ghost function PickKey(keys: set<int>): (k: int)
    requires keys != {}
    ensures k in keys
  {
    NonEmptyHasElement(keys);
    var k :| k in keys; k
  }

  lemma NonEmptyHasElement(keys: set<int>)
    requires keys != {}
    ensures exists k :: k in keys
  {
    if forall k :: k !in keys {
      assert false;
    }
  }

  /** The values of `m` under `keys`, with multiplicities. */
  ghost function BagOf(m: map<int, Pointer>, keys: set<int>): multiset<Pointer>
    requires keys <= m.Keys
    decreases keys
  {
    if keys == {} then multiset{}
    else
      var k := PickKey(keys);
      multiset{m[k]} + BagOf(m, keys - {k})
  }

  /** The pointer values of `m` with their multiplicities: what iterating `m.values` visits. */
  ghost function ValueBag(m: map<int, Pointer>): multiset<Pointer> {
    BagOf(m, m.Keys)
  }

  /** Every key contributes its value once, whichever key is visited first. */
  lemma {:induction false} BagOfRemove(m: map<int, Pointer>, keys: set<int>, k: int)
    requires keys <= m.Keys && k in keys
    ensures BagOf(m, keys) == multiset{m[k]} + BagOf(m, keys - {k})
    decreases keys
  {
    var j := PickKey(keys);
    if j != k {
      BagOfRemove(m, keys - {j}, k);
      BagOfRemove(m, keys - {k}, j);
      assert keys - {j} - {k} == keys - {k} - {j};
    }
  }

  /** The bag has one element per key, and holds exactly the values stored under those keys. */
  lemma {:induction false} BagOfShape(m: map<int, Pointer>, keys: set<int>)
    requires keys <= m.Keys
    ensures |BagOf(m, keys)| == |keys|
    ensures forall p :: p in BagOf(m, keys) <==> exists k :: k in keys && m[k] == p
    decreases keys
  {
    if keys != {} {
      var k := PickKey(keys);
      BagOfShape(m, keys - {k});
    }
  }

  lemma ValueHasKey(m: map<int, Pointer>, p: Pointer)
    requires p in m.Values
    ensures exists k :: k in m.Keys && m[k] == p
  {
    if forall k :: k in m.Keys ==> m[k] != p {
      assert false;
    }
  }

  /** `ValueBag` holds each entry's pointer once: as many pointers as keys, and exactly the map's values. */
  lemma ValueBagShape(m: map<int, Pointer>)
    ensures |ValueBag(m)| == |m|
    ensures forall p :: p in ValueBag(m) <==> p in m.Values
  {
    BagOfShape(m, m.Keys);
    forall p | p in m.Values ensures exists k :: k in m.Keys && m[k] == p {
      ValueHasKey(m, p);
    }
  }

  class InputMemory {
    var deviceData: map<int, Pointer>
    var deviceColumnLengths: map<int, Pointer>
    var totalNumbersOfColumns: map<int, int>

    constructor ()
      ensures deviceData == map[] && deviceColumnLengths == map[] && totalNumbersOfColumns == map[]
    {
      deviceData := map[];
      deviceColumnLengths := map[];
      totalNumbersOfColumns := map[];
    }

    /** The pointer last stored under `id`, or null. */
    function TryToGetData(id: int): (r: Option<Pointer>)
      reads this
      ensures r.Some? <==> id in deviceData
      ensures r.Some? ==> r.value == deviceData[id]
    {
      if id in deviceData then Some(deviceData[id]) else None
    }

    /** `deviceData[id]!!`: a missing key throws. */
    function GetDeviceData(id: int): (r: Result<Pointer, KotlinError>)
      reads this
      ensures r.Success? <==> id in deviceData
      ensures r.Success? ==> r.value == deviceData[id]
      ensures r.Failure? ==> r.error == NullPointerException
    {
      if id in deviceData then Success(deviceData[id]) else Failure(NullPointerException)
    }

    /** `deviceColumnLengths[id]!!`. */
    function GetDeviceNumbersOfColumns(id: int): (r: Result<Pointer, KotlinError>)
      reads this
      ensures r.Success? <==> id in deviceColumnLengths
      ensures r.Success? ==> r.value == deviceColumnLengths[id]
      ensures r.Failure? ==> r.error == NullPointerException
    {
      if id in deviceColumnLengths then Success(deviceColumnLengths[id]) else Failure(NullPointerException)
    }

    /** `totalNumbersOfColumns[id]!!`. */
    function GetTotalNumbersOfColumns(id: int): (r: Result<int, KotlinError>)
      reads this
      ensures r.Success? <==> id in totalNumbersOfColumns
      ensures r.Success? ==> r.value == totalNumbersOfColumns[id]
      ensures r.Failure? ==> r.error == NullPointerException
    {
      if id in totalNumbersOfColumns then Success(totalNumbersOfColumns[id]) else Failure(NullPointerException)
    }

    method SetData(id: int, pointer: Pointer)
      modifies this
      ensures deviceData == old(deviceData)[id := pointer]
      ensures deviceColumnLengths == old(deviceColumnLengths) && totalNumbersOfColumns == old(totalNumbersOfColumns)
      ensures TryToGetData(id) == Some(pointer)
      ensures forall other :: other != id ==> TryToGetData(other) == old(TryToGetData(other))
    {
      deviceData := deviceData[id := pointer];
    }

    method SetColumnLengths(id: int, pointer: Pointer)
      modifies this
      ensures deviceColumnLengths == old(deviceColumnLengths)[id := pointer]
      ensures deviceData == old(deviceData) && totalNumbersOfColumns == old(totalNumbersOfColumns)
    {
      deviceColumnLengths := deviceColumnLengths[id := pointer];
    }

    method SetTotalNumberOfColumns(id: int, number: int)
      modifies this
      ensures totalNumbersOfColumns == old(totalNumbersOfColumns)[id := number]
      ensures deviceData == old(deviceData) && deviceColumnLengths == old(deviceColumnLengths)
    {
      totalNumbersOfColumns := totalNumbersOfColumns[id := number];
    }

    /**
     * Frees every pointer stored in `deviceData` and `deviceColumnLengths`, once per entry
     * (the column totals are ints and are not freed), then empties all three maps.
     */
    method Free(gpu: Gpu)
      modifies this, gpu
      ensures gpu.freed == old(gpu.freed) + ValueBag(old(deviceData)) + ValueBag(old(deviceColumnLengths))
      ensures deviceData == map[] && deviceColumnLengths == map[] && totalNumbersOfColumns == map[]
      ensures gpu.nextHandle == old(gpu.nextHandle) && gpu.floatUploads == old(gpu.floatUploads)
      ensures gpu.intArrays == old(gpu.intArrays) && gpu.allocations == old(gpu.allocations)
      ensures gpu.destroyed == old(gpu.destroyed) && gpu.launches == old(gpu.launches)
    {
      // arrayOf(deviceData, deviceColumnLengths).forEach { ... }
      FreeValues(deviceData, gpu);
      FreeValues(deviceColumnLengths, gpu);
      deviceData := map[];
      deviceColumnLengths := map[];
      totalNumbersOfColumns := map[];
    }
  }

  /** `map.values.forEach { cudaFree(it) }`: one free per entry of `m`. */
  method FreeValues(m: map<int, Pointer>, gpu: Gpu)
    modifies gpu
    ensures gpu.freed == old(gpu.freed) + ValueBag(m)
    ensures gpu.nextHandle == old(gpu.nextHandle) && gpu.floatUploads == old(gpu.floatUploads)
    ensures gpu.intArrays == old(gpu.intArrays) && gpu.allocations == old(gpu.allocations)
    ensures gpu.destroyed == old(gpu.destroyed) && gpu.launches == old(gpu.launches)
  {
    var rest := m.Keys;
    while rest != {}
      invariant rest <= m.Keys
      invariant gpu.freed + BagOf(m, rest) == old(gpu.freed) + ValueBag(m)
      invariant gpu.nextHandle == old(gpu.nextHandle) && gpu.floatUploads == old(gpu.floatUploads)
      invariant gpu.intArrays == old(gpu.intArrays) && gpu.allocations == old(gpu.allocations)
      invariant gpu.destroyed == old(gpu.destroyed) && gpu.launches == old(gpu.launches)
      decreases rest
    {
      NonEmptyHasElement(rest);
      var k :| k in rest;
      BagOfRemove(m, rest, k);
      gpu.Free(m[k]);
      rest := rest - {k};
    }
  }

  /** A second `Free` releases nothing more: the maps it walks are already empty. */
  method FreeTwice(memory: InputMemory, gpu: Gpu)
    modifies memory, gpu
    ensures gpu.freed == old(gpu.freed) + ValueBag(old(memory.deviceData)) + ValueBag(old(memory.deviceColumnLengths))
  {
    memory.Free(gpu);
    memory.Free(gpu);
  }
}
