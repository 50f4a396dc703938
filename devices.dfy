/**
 * The accelerator as the core sees it: opaque pointer handles, float and int transfers,
 * allocations, frees, kernel destruction and launches. No device arithmetic is modelled.
 */
module Devices {

  /** A JCuda `Pointer` object, identified by a handle that is never reused. */
  datatype Pointer = Pointer(handle: nat)

  /** A compiled kernel as returned by a kernel factory. */
  datatype Kernel = Kernel(id: nat)

  /** One `setFloatArray(source, count, target)` transfer from host to device. */
  datatype FloatUpload = FloatUpload(target: Pointer, source: seq<real>, count: int)

  /**
   * One kernel launch: the kernel, the batch size it reads from host memory, the lengths/input/result
   * pointers it was given and its grid.
   */
  datatype Launch = Launch(
    kernel: Kernel,
    batchSize: int,
    lengths: Pointer,
    input: Pointer,
    result: Pointer,
    numberBlocksInXDimension: int,
    numberBlocksInYDimension: int,
    numberThreadsPerBlock: int,
    sharedMemoryBytes: int)

  class Gpu {
    var nextHandle: nat
    var floatUploads: seq<FloatUpload>
    var intArrays: map<Pointer, seq<int>>
    var allocations: map<Pointer, int>
    var freed: multiset<Pointer>
    var destroyed: seq<Kernel>
    var launches: seq<Launch>

    constructor ()
      ensures nextHandle == 0 && floatUploads == [] && intArrays == map[]
      ensures allocations == map[] && freed == multiset{} && destroyed == [] && launches == []
    {
      nextHandle := 0;
      floatUploads := [];
      intArrays := map[];
      allocations := map[];
      freed := multiset{};
      destroyed := [];
      launches := [];
    }

    /** `Pointer()`: a new handle, distinct from every handle handed out before. */
    method NewPointer() returns (p: Pointer)
      modifies this
      ensures p == Pointer(old(nextHandle)) && nextHandle == old(nextHandle) + 1
      ensures floatUploads == old(floatUploads) && intArrays == old(intArrays)
      ensures allocations == old(allocations) && freed == old(freed)
      ensures destroyed == old(destroyed) && launches == old(launches)
    {
      p := Pointer(nextHandle);
      nextHandle := nextHandle + 1;
    }

    /** `setFloatArray`: allocates device memory behind `target` and copies `count` entries of `source`. */
    method SetFloatArray(source: seq<real>, count: int, target: Pointer)
      modifies this
      ensures floatUploads == old(floatUploads) + [FloatUpload(target, source, count)]
      ensures nextHandle == old(nextHandle) && intArrays == old(intArrays)
      ensures allocations == old(allocations) && freed == old(freed)
      ensures destroyed == old(destroyed) && launches == old(launches)
    {
      floatUploads := floatUploads + [FloatUpload(target, source, count)];
    }

    /** `setIntArray`: `target` now holds the first `count` entries of `source`. */
    method SetIntArray(source: seq<int>, count: int, target: Pointer)
      requires 0 <= count <= |source|
      modifies this
      ensures intArrays == old(intArrays)[target := source[..count]]
      ensures nextHandle == old(nextHandle) && floatUploads == old(floatUploads)
      ensures allocations == old(allocations) && freed == old(freed)
      ensures destroyed == old(destroyed) && launches == old(launches)
    {
      intArrays := intArrays[target := source[..count]];
    }

    /** `allocateDeviceFloatMemory`: `target` now owns room for `size` floats. */
    method AllocateFloats(target: Pointer, size: int)
      modifies this
      ensures allocations == old(allocations)[target := size]
      ensures nextHandle == old(nextHandle) && floatUploads == old(floatUploads)
      ensures intArrays == old(intArrays) && freed == old(freed)
      ensures destroyed == old(destroyed) && launches == old(launches)
    {
      allocations := allocations[target := size];
    }

    /** `cudaFree`: one more release of `p`. */
    method Free(p: Pointer)
      modifies this
      ensures freed == old(freed) + multiset{p}
      ensures nextHandle == old(nextHandle) && floatUploads == old(floatUploads)
      ensures intArrays == old(intArrays) && allocations == old(allocations)
      ensures destroyed == old(destroyed) && launches == old(launches)
    {
      freed := freed + multiset{p};
    }

    /** `Kernel.destroy`. */
    method Destroy(k: Kernel)
      modifies this
      ensures destroyed == old(destroyed) + [k]
      ensures nextHandle == old(nextHandle) && floatUploads == old(floatUploads)
      ensures intArrays == old(intArrays) && allocations == old(allocations)
      ensures freed == old(freed) && launches == old(launches)
    {
      destroyed := destroyed + [k];
    }

    /** `Kernel.launch`, queued on the one stream. */
    method LaunchKernel(l: Launch)
      modifies this
      ensures launches == old(launches) + [l]
      ensures nextHandle == old(nextHandle) && floatUploads == old(floatUploads)
      ensures intArrays == old(intArrays) && allocations == old(allocations)
      ensures freed == old(freed) && destroyed == old(destroyed)
    {
      launches := launches + [l];
    }
  }
}
