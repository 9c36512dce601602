/**
 * Host logic of the 1-D FFT entry points of api/src/fft1d.c: the
 * double- and single-precision out-of-place transforms and the
 * single-precision shared-virtual-memory variant. The fetch kernel reads
 * d_inData (or the SVM input buffer) and the fft1d kernel writes d_outData
 * (or the SVM output buffer), which the host reads back.
 */
module Fft1d {
  import opened Common

  /** Sample type of an entry point: float2 or double2. */
  datatype Precision = Single | Double

  /** sizeof(float2) and sizeof(double2). */
  function SampleBytes(p: Precision): nat
  {
    match p
    case Single => 8
    case Double => 16
  }

  /** Samples of `batch` transforms of N points. */
  function NumPts1d(n: bv32, batch: nat): nat
  {
    batch * (n as int)
  }

  /** Bytes of each device buffer and of the host-to-device write. */
  function TransferBytes(p: Precision, n: bv32, batch: nat): nat
  {
    SampleBytes(p) * NumPts1d(n, batch)
  }

  /** Local and global NDRange sizes of the fetch kernel: N/8 and batch*(N/8). */
  function LaunchGeometry(n: bv32, batch: nat): (g: (nat, nat))
  {
    var m: nat := n as int;
    var ls: nat := m / 8;
    (ls, batch * ls)
  }

  /**
   * The fetch kernel is launched as `batch` whole work-groups of N/8 work
   * items; the work-group size is zero exactly when N < 8.
   */
  lemma GeometryIsWholeGroups(n: bv32, batch: nat)
    ensures LaunchGeometry(n, batch).0 == 0 <==> (n as int) < 8
    ensures LaunchGeometry(n, batch).0 > 0 ==>
      LaunchGeometry(n, batch).1 % LaunchGeometry(n, batch).0 == 0 &&
      LaunchGeometry(n, batch).1 / LaunchGeometry(n, batch).0 == batch
  {
    var m: nat := n as int;
    var ls: nat := m / 8;
    if ls > 0 {
      ExactQuotient(batch * ls, ls, batch);
    }
  }

  /**
   * Flags of d_inData and d_outData: read-only and write-only in single
   * precision, read-write in double precision; the output buffer is on
   * channel 2 in both.
   */
  function BufferFlags(p: Precision): (flags: (MemFlags, MemFlags))
  {
    match p
    case Single => (MemFlags(ReadOnly, None), MemFlags(WriteOnly, Some(2)))
    case Double => (MemFlags(ReadWrite, None), MemFlags(ReadWrite, Some(2)))
  }

  /** Either precision lets fetch read d_inData and fft1d write d_outData, on different channels. */
  lemma BufferFlagsFitKernels(p: Precision)
    ensures DeviceReadable(BufferFlags(p).0) && DeviceWritable(BufferFlags(p).1)
    ensures BufferFlags(p).0.channel != BufferFlags(p).1.channel
  {
  }

  /** Device-to-host read-back size of fftfpga_c2c_1d as written: N*batch samples of sizeof(float2). */
  function DpReadBackBytesAsWritten(n: bv32, batch: nat): (r: nat)
  {
    SampleBytes(Single) * NumPts1d(n, batch)
  }

  /**
   * The double-precision read-back as written covers only the first half
   * of d_outData: whenever there is something to transform, part of the
   * result never reaches out. For N = 64 and one batch, 1024 bytes are
   * written and 512 read.
   */
  lemma DpReadBackTruncated(n: bv32, batch: nat)
    ensures 2 * DpReadBackBytesAsWritten(n, batch) == TransferBytes(Double, n, batch)
    ensures NumPts1d(n, batch) > 0 ==> DpReadBackBytesAsWritten(n, batch) < TransferBytes(Double, n, batch)
    ensures DpReadBackBytesAsWritten(64, 1) == 512 && TransferBytes(Double, 64, 1) == 1024
  {
  }

  /**
   * fftfpga_c2c_1d (Double) and fftfpgaf_c2c_1d (Single), with the
   * double-precision read-back sized by sizeof(double2) as intended. The
   * host writes inp into d_inData, fetch streams d_inData into the fft1d
   * kernel, which writes d_outData, and the host reads d_outData into out.
   */
  method C2c1d(p: Precision, n: bv32, inpNull: bool, outNull: bool, inverse: bool, batch: nat, out0: Data)
    returns (valid: bool, out: Data, inFlags: MemFlags, outFlags: MemFlags, geometry: (nat, nat),
             bufferBytes: nat, writeBytes: nat, readBytes: nat)
    ensures valid <==> !inpNull && !outNull && PassesPow2Guard(n)
    ensures !valid ==> out == out0 && writeBytes == 0 && readBytes == 0
    ensures valid ==> out == Run(Fft1d, inverse, Input(0))
    ensures valid ==> DeviceReadable(inFlags) && DeviceWritable(outFlags) && inFlags.channel != outFlags.channel
    ensures valid ==> (inFlags.access == ReadOnly && outFlags.access == WriteOnly <==> p == Single)
    ensures valid ==> geometry == LaunchGeometry(n, batch)
    ensures valid ==> bufferBytes == writeBytes == readBytes == SampleBytes(p) * NumPts1d(n, batch)
  {
    inFlags, outFlags, geometry := MemFlags(ReadWrite, None), MemFlags(ReadWrite, None), (0, 0);
    bufferBytes, writeBytes, readBytes := 0, 0, 0;
    if inpNull || outNull || !PassesPow2Guard(n) {
      return false, out0, inFlags, outFlags, geometry, bufferBytes, writeBytes, readBytes;
    }
    inFlags, outFlags := BufferFlags(p).0, BufferFlags(p).1;
    bufferBytes := TransferBytes(p, n, batch);
    var dIn, dOut := Input(0), Unset;
    writeBytes := TransferBytes(p, n, batch);
    geometry := LaunchGeometry(n, batch);
    dOut := Run(Fft1d, inverse, dIn);
    readBytes := TransferBytes(p, n, batch);
    out := dOut;
    valid := true;
  }

  /**
   * fftfpgaf_c2c_1d_svm. The host copies the N*batch input samples into
   * the SVM input buffer and zeroes the SVM output buffer, the kernels
   * leave `deviceResult` in the output buffer, and the host copies it into
   * out sample by sample. `launchIn` and `launchOut` are the SVM buffers'
   * contents when the kernels start.
   */
  method C2c1dSvm(n: bv32, inp: array?<Complex>, out: array?<Complex>, inverse: bool, batch: nat,
                  svmEnabled: bool, deviceResult: seq<Complex>)
    returns (valid: bool, geometry: (nat, nat), launchIn: seq<Complex>, launchOut: seq<Complex>)
    requires inp != null ==> inp.Length >= NumPts1d(n, batch)
    requires out != null ==> out.Length >= NumPts1d(n, batch) && out != inp
    requires |deviceResult| == NumPts1d(n, batch)
    modifies out
    ensures valid <==> inp != null && out != null && PassesPow2Guard(n) && svmEnabled
    ensures !valid ==> out == null || unchanged(out)
    ensures valid ==> geometry == LaunchGeometry(n, batch)
    ensures valid ==> launchIn == inp[..NumPts1d(n, batch)]
    ensures valid ==> launchOut == seq(NumPts1d(n, batch), _ => Zero)
    ensures valid ==> out[..NumPts1d(n, batch)] == deviceResult
    ensures valid ==> out[NumPts1d(n, batch)..] == old(out[NumPts1d(n, batch)..])
  {
    geometry, launchIn, launchOut := (0, 0), [], [];
    if inp == null || out == null || !PassesPow2Guard(n) || !svmEnabled {
      return false, geometry, launchIn, launchOut;
    }
    var numPts := NumPts1d(n, batch);
    var hIn := new Complex[numPts];
    var hOut := new Complex[numPts];
    CopyElements(hIn, inp, numPts);
    ZeroElements(hOut, numPts);
    launchIn, launchOut := hIn[..], hOut[..];
    geometry := LaunchGeometry(n, batch);
    forall i | 0 <= i < numPts {
      hOut[i] := deviceResult[i];
    }
    CopyElements(out, hOut, numPts);
    valid := true;
  }
}
