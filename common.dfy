/**
 * Shared vocabulary of the host-side model: optional values, complex
 * samples, device-buffer flags, symbolic buffer contents and the
 * power-of-two size guard used by every FFT entry point.
 */
module Common {

  datatype Option<T> = None | Some(value: T)

  /** A `float2`/`double2` sample. The host code only copies and zeroes these. */
  datatype Complex = Complex(x: real, y: real)

  const Zero: Complex := Complex(0.0, 0.0)

  /** The access part of a `cl_mem_flags` value. */
  datatype Access = ReadOnly | WriteOnly | ReadWrite

  /**
   * Flags a device buffer is created with: its access and the
   * `CL_CHANNEL_k_INTELFPGA` bank it is pinned to, or `None` when the
   * buffer is left to burst-interleaving.
   */
  datatype MemFlags = MemFlags(access: Access, channel: Option<nat>)

  predicate DeviceReadable(f: MemFlags) { f.access != WriteOnly }

  predicate DeviceWritable(f: MemFlags) { f.access != ReadOnly }

  /**
   * A chain of kernels that streams one buffer's contents into another.
   * The FFT arithmetic itself happens inside these kernels and is not modelled.
   */
  datatype Pipeline =
    | Bram3d        // fetch, fft3da, transpose, fft3db, transpose3d, fft3dc, store
    | Ddr3dStage1   // fetch1, fft3da, transpose, fft3db, transposeStore1
    | Ddr3dStage2   // fetch2, fft3dc, transposeStore2
    | Svm3dToDdr    // fetch, fft3da, transpose, fft3db, transpose3D writing global memory
    | Svm3dFromDdr  // transpose3D reading global memory, fft3dc, store
    | Pass2d        // fetch, fft2da, transpose: one row pass of a 2-D FFT
    | Bram2d        // the complete 2-D pipeline with the transpose in BRAM
    | Fft1d         // fetch, fft1d: a batch of 1-D FFTs

  /**
   * Symbolic contents of a device buffer or host block: nothing written
   * yet, input batch `batch` as the host handed it over, zeroes, or the
   * result of running a pipeline over other contents.
   */
  datatype Data =
    | Unset
    | Input(batch: nat)
    | Zeros
    | Run(pipeline: Pipeline, inverse: bool, src: Data)

  /** The size guard shared by all entry points: `(N & (N-1)) == 0`. */
  predicate PassesPow2Guard(n: bv32) { n & (n - 1) == 0 }

  /** n is a power of two: halving it reaches 1 without meeting an odd value. */
  predicate IsPowerOfTwo(n: bv32)
    decreases n
  {
    n == 1 || (n != 0 && n & 1 == 0 && IsPowerOfTwo(n >> 1))
  }

  /**
   * The guard lets through exactly 0 and the powers of two; in particular
   * N = 0 is accepted by every entry point.
   */
  lemma {:induction false} Pow2GuardExact(n: bv32)
    ensures PassesPow2Guard(n) <==> n == 0 || IsPowerOfTwo(n)
    decreases n
  {
    if n > 1 && n & 1 == 0 {
      var m := n >> 1;
      assert PassesPow2Guard(n) <==> PassesPow2Guard(m);
      Pow2GuardExact(m);
    }
  }

  /** Block b of `count` blocks of `size` elements lies inside the whole buffer. */
  lemma BlockBounds(b: nat, count: nat, size: nat)
    requires b < count
    ensures 0 <= b * size <= (b + 1) * size <= count * size
  {
    var k: nat := count - b - 1;
    Distribute(b, 1, size);
    Distribute(b + 1, k, size);
    assert count == (b + 1) + k;
  }

  lemma Distribute(x: nat, y: nat, z: nat)
    ensures (x + y) * z == x * z + y * z && 0 <= x * z && 0 <= y * z
  {
  }

  /** a = q*d exactly gives quotient q and remainder 0. */
  lemma ExactQuotient(a: int, d: int, q: int)
    requires d > 0 && a == q * d
    ensures a / d == q && a % d == 0
  {
    var r := a % d;
    var k := a / d;
    assert a == d * k + r && 0 <= r < d;
    assert d * (k - q) == -r;
    if k - q >= 1 {
      assert false;
    } else if k - q <= -1 {
      assert false;
    }
  }

  /**
   * Flags of the input and output buffers of the BRAM variants: both
   * burst-interleaved and read-write, or input read-only on channel 1 and
   * output write-only on channel 2.
   */
  function BramFlags(interleaving: bool): (flags: (MemFlags, MemFlags))
  {
    if interleaving then (MemFlags(ReadWrite, None), MemFlags(ReadWrite, None))
    else (MemFlags(ReadOnly, Some(1)), MemFlags(WriteOnly, Some(2)))
  }

  /**
   * The BRAM flags let the fetch kernel read the input buffer and the store
   * kernel write the output buffer, and keep the two buffers on separate
   * channels unless interleaving is requested.
   */
  lemma BramFlagsFitKernels(interleaving: bool)
    ensures DeviceReadable(BramFlags(interleaving).0) && DeviceWritable(BramFlags(interleaving).1)
    ensures !interleaving ==> BramFlags(interleaving).0.channel != BramFlags(interleaving).1.channel
    ensures interleaving <==> BramFlags(interleaving).0.channel.None? && BramFlags(interleaving).1.channel.None?
  {
  }

  /** An element-by-element copy loop: the first `count` elements of `src` into `dst`. */
  method CopyElements(dst: array<Complex>, src: array<Complex>, count: nat)
    requires count <= dst.Length && count <= src.Length && dst != src
    modifies dst
    ensures dst[..count] == src[..count]
    ensures dst[count..] == old(dst[count..])
  {
    var i := 0;
    while i < count
      invariant 0 <= i <= count
      invariant dst[..i] == src[..i]
      invariant dst[count..] == old(dst[count..])
    {
      dst[i] := src[i];
      i := i + 1;
    }
  }

  /** An element-by-element zeroing loop over the first `count` elements of `dst`. */
  method ZeroElements(dst: array<Complex>, count: nat)
    requires count <= dst.Length
    modifies dst
    ensures forall i :: 0 <= i < count ==> dst[i] == Zero
    ensures dst[count..] == old(dst[count..])
  {
    var i := 0;
    while i < count
      invariant 0 <= i <= count
      invariant forall j :: 0 <= j < i ==> dst[j] == Zero
      invariant dst[count..] == old(dst[count..])
    {
      dst[i] := Zero;
      i := i + 1;
    }
  }
}
