/**
 * api/src/fftfpga.c: host allocation, the FPGA runtime that
 * fpga_initialize, fpga_final, queue_setup and queue_cleanup manage, and
 * this file's own FFT entry points. The OpenCL queries fpga_initialize
 * depends on (findPlatform, getDevices, clCreateContext,
 * getProgramWithBinary) appear as their results.
 */
module FpgaApi {
  import opened Common
  import opened Queues
  import Fft1d
  import Fft2d

  /**
   * fftfpga_complex_malloc and fftfpgaf_complex_malloc: `Some(sz)` stands
   * for a fresh 64-byte aligned block of sz bytes, `None` for NULL.
   * `alignedOk` is whether posix_memalign succeeds.
   */
  function ComplexMalloc(sz: nat, svm: int, alignedOk: bool): (r: Option<nat>)
    ensures svm == 1 ==> r == None
    ensures sz == 0 ==> r == None
    ensures r.Some? <==> svm != 1 && sz != 0 && alignedOk
    ensures r.Some? ==> r.value == sz
  {
    if svm == 1 then None
    else if sz == 0 then None
    else if alignedOk then Some(sz)
    else None
  }

  /** A release of an OpenCL object, in the order the host makes it. */
  datatype Release = ReleaseProgram(program: nat) | ReleaseContext(context: nat) | FreeDevices | ReleaseQueue(queue: nat)

  /** The queue releases of queue_cleanup: one per queue that is set, in queue order. */
  function QueueReleases(queues: seq<Option<nat>>): (r: seq<Release>)
    ensures |r| <= |queues|
    ensures forall x :: x in r ==> x.ReleaseQueue? && Some(x.queue) in queues
    ensures (forall q :: q in queues ==> q.None?) ==> r == []
  {
    if queues == [] then []
    else
      var rest := QueueReleases(queues[..|queues| - 1]);
      var last := queues[|queues| - 1];
      assert forall x :: x in queues[..|queues| - 1] ==> x in queues;
      rest + (if last.Some? then [ReleaseQueue(last.value)] else [])
  }

  /**
   * The module-level statics of api/src/fftfpga.c (platform, devices,
   * device, context, program, queue1..queue6) and the releases made so far.
   */
  class Runtime {
    var platform: Option<nat>
    var devices: Option<seq<nat>>
    var device: Option<nat>
    var context: Option<nat>
    var program: Option<nat>
    var queues: seq<Option<nat>>
    var released: seq<Release>

    /** Program start: every static is NULL. */
    constructor ()
      ensures platform == None && devices == None && device == None && context == None && program == None
      ensures queues == [None, None, None, None, None, None] && released == []
    {
      platform, devices, device, context, program := None, None, None, None, None;
      queues := [None, None, None, None, None, None];
      released := [];
    }

    /**
     * fpga_final: releases the program and the context when they are set
     * and frees the device list. The statics keep their values.
     */
    method Final()
      modifies this
      ensures released == old(released)
        + (if old(program).Some? then [ReleaseProgram(old(program).value)] else [])
        + (if old(context).Some? then [ReleaseContext(old(context).value)] else [])
        + [FreeDevices]
      ensures platform == old(platform) && devices == old(devices) && device == old(device)
      ensures context == old(context) && program == old(program) && queues == old(queues)
    {
      var rel := released;
      if program.Some? {
        rel := rel + [ReleaseProgram(program.value)];
      }
      if context.Some? {
        rel := rel + [ReleaseContext(context.value)];
      }
      released := rel + [FreeDevices];
    }

    /**
     * fpga_initialize. `path` is None for a NULL path; `foundPlatform`,
     * `foundDevices`, `newContext` and `builtProgram` are what findPlatform,
     * getDevices, clCreateContext and getProgramWithBinary return. The
     * result is 0 on success and 1 on every failure.
     */
    method Initialize(path: Option<string>, foundPlatform: Option<nat>, foundDevices: Option<seq<nat>>,
                      newContext: nat, builtProgram: Option<nat>) returns (status: int)
      requires foundDevices.Some? ==> |foundDevices.value| >= 1
      modifies this
      ensures status == 0 || status == 1
      ensures status == 0 <==> path.Some? && path.value != [] && foundPlatform.Some? && foundDevices.Some? && builtProgram.Some?
      ensures (path.None? || path.value == []) ==> unchanged(this)
      ensures path.Some? && path.value != [] ==> platform == foundPlatform
      ensures path.Some? && path.value != [] && foundPlatform.Some? ==> devices == foundDevices
      ensures path.Some? && path.value != [] && foundPlatform.Some? && foundDevices.Some? ==>
        && device == Some(foundDevices.value[0]) && context == Some(newContext) && program == builtProgram
        && released == old(released) + (if builtProgram.None? then [ReleaseContext(newContext), FreeDevices] else [])
      ensures status == 1 && !(path.Some? && path.value != [] && foundPlatform.Some? && foundDevices.Some?) ==>
        released == old(released)
      ensures queues == old(queues)
    {
      if path.None? || path.value == [] {
        return 1;
      }
      platform := foundPlatform;
      if platform.None? {
        return 1;
      }
      devices := foundDevices;
      if devices.None? {
        return 1;
      }
      device := Some(devices.value[0]);
      context := Some(newContext);
      program := builtProgram;
      if program.None? {
        Final();
        return 1;
      }
      status := 0;
    }

    /** queue_setup: queue1..queue6 are created on the context and device. */
    method QueueSetup(created: seq<nat>)
      requires |created| == 6
      modifies this
      ensures queues == seq(6, k requires 0 <= k < 6 => Some(created[k]))
      ensures platform == old(platform) && devices == old(devices) && device == old(device)
      ensures context == old(context) && program == old(program) && released == old(released)
    {
      queues := [Some(created[0]), Some(created[1]), Some(created[2]), Some(created[3]), Some(created[4]), Some(created[5])];
    }

    /** queue_cleanup: releases every queue that is set, queue1 first; the statics keep their values. */
    method QueueCleanup()
      modifies this
      ensures released == old(released) + QueueReleases(old(queues))
      ensures platform == old(platform) && devices == old(devices) && device == old(device)
      ensures context == old(context) && program == old(program) && queues == old(queues)
    {
      released := released + QueueReleases(queues);
    }
  }

  /** Buffers of this file's FFT entry points. */
  datatype Buf = DIn | DOut | DTmp

  /** The guard every FFT entry point of this file starts with. */
  predicate EntryGuard(n: bv32, inpNull: bool, outNull: bool)
  {
    !inpNull && !outNull && PassesPow2Guard(n)
  }

  /**
   * fftfpga_c2c_1d (Double) and fftfpgaf_c2c_1d (Single) of this file:
   * the same launch as in api/src/fft1d.c, with both buffers created
   * read-write and the output on channel 2.
   */
  method C2c1d(p: Fft1d.Precision, n: bv32, inpNull: bool, outNull: bool, inverse: bool, iter: nat, out0: Data)
    returns (valid: bool, out: Data, inFlags: MemFlags, outFlags: MemFlags, geometry: (nat, nat), readBytes: nat)
    ensures valid <==> EntryGuard(n, inpNull, outNull)
    ensures !valid ==> out == out0
    ensures valid ==> out == Run(Fft1d, inverse, Input(0))
    ensures valid ==> inFlags == MemFlags(ReadWrite, None) && outFlags == MemFlags(ReadWrite, Some(2))
    ensures valid ==> geometry == Fft1d.LaunchGeometry(n, iter)
    ensures valid ==> readBytes == Fft1d.TransferBytes(p, n, iter)
  {
    var bufferBytes, writeBytes;
    valid, out, inFlags, outFlags, geometry, bufferBytes, writeBytes, readBytes := Fft1d.C2c1d(p, n, inpNull, outNull, inverse, iter, out0);
    if valid {
      inFlags, outFlags := MemFlags(ReadWrite, None), MemFlags(ReadWrite, Some(2));
    }
  }

  /** Flags of the 2-D DDR buffers of this file: all read-write, d_tmp on channel 2. */
  function Ddr2dFlags(b: Fft2d.Buf): MemFlags
  {
    if b == Fft2d.DTmp then MemFlags(ReadWrite, Some(2)) else MemFlags(ReadWrite, None)
  }

  /**
   * fftfpgaf_c2c_2d_ddr of this file: the two-pass loop of
   * api/src/fft2d.c, with every buffer read-write.
   */
  method C2c2dDdr(n: bv32, inpNull: bool, outNull: bool, inverse: bool, out0: Data)
    returns (valid: bool, out: Data, passes: seq<Fft2d.Pass>, readBack: Fft2d.Buf, phases: seq<Phase<Fft2d.Buf>>)
    ensures valid <==> EntryGuard(n, inpNull, outNull)
    ensures !valid ==> out == out0
    ensures valid ==> |passes| == 2 && passes[0].fetch == Fft2d.DIn && passes[0].transpose == passes[1].fetch == Fft2d.DTmp
    ensures valid ==> passes[1].transpose == readBack == Fft2d.DOut
    ensures valid ==> forall p :: 0 <= p < 2 ==> DeviceReadable(Ddr2dFlags(passes[p].fetch)) && DeviceWritable(Ddr2dFlags(passes[p].transpose))
    ensures valid ==> out == Run(Pass2d, inverse, Run(Pass2d, inverse, Input(0)))
    ensures !valid ==> phases == []
    ensures valid ==> |phases| == 4 && phases[0] == Phase([Command(1, None, Some(Fft2d.DIn))], [1])
    ensures valid ==> forall p :: 1 <= p <= 2 ==>
      phases[p] == Phase(Fft2d.PassCommands(passes[p - 1].fetch, passes[p - 1].transpose), [1, 2, 3])
    ensures valid ==> phases[3] == Phase([Command(1, Some(readBack), None)], [1])
    ensures AllRaceFree(phases)
  {
    valid, out, passes, readBack, phases := Fft2d.C2c2dDdr(n, inpNull, outNull, inverse, out0);
  }

  /** The kernels of fftfpgaf_c2c_2d_bram: fetch, fft2da, transpose, fft2db and store on queues 1 to 5. */
  function Bram2dKernels(): seq<Command<Buf>>
  {
    [Command(1, Some(DIn), None), Command(2, None, None), Command(3, None, None),
     Command(4, None, None), Command(5, None, Some(DOut))]
  }

  /** The kernels of fftfpgaf_c2c_3d_bram: fetch, fft3da, transpose into d_outData, fft3db and transpose3d on queues 1 to 5. */
  function Bram3dKernels(): seq<Command<Buf>>
  {
    [Command(1, Some(DIn), None), Command(2, None, None), Command(3, None, Some(DOut)),
     Command(4, None, None), Command(5, None, None)]
  }

  /** A single streaming phase on queues 1..5 that reads d_inData and writes d_outData cannot race. */
  lemma StreamingKernelsRaceFree()
    ensures RaceFree(Phase(Bram2dKernels(), [1, 2, 3, 4, 5]))
    ensures RaceFree(Phase(Bram3dKernels(), [1, 2, 3, 4, 5]))
  {
    OneReaderOneWriter(Phase(Bram2dKernels(), [1, 2, 3, 4, 5]), 0, 4);
    OneReaderOneWriter(Phase(Bram3dKernels(), [1, 2, 3, 4, 5]), 0, 2);
  }

  /** The streaming kernels of the 2-D or the 3-D BRAM transform. */
  function CBramKernels(threeD: bool): seq<Command<Buf>>
  {
    if threeD then Bram3dKernels() else Bram2dKernels()
  }

  /** Buffer flags of the BRAM transforms: read-write, pinned to channels 1 and 2 only in 3-D. */
  function CBramFlags(threeD: bool): (MemFlags, MemFlags)
  {
    if threeD then (MemFlags(ReadWrite, Some(1)), MemFlags(ReadWrite, Some(2)))
    else (MemFlags(ReadWrite, None), MemFlags(ReadWrite, None))
  }

  /**
   * fftfpgaf_c2c_2d_bram (`threeD` false, N*N points) and
   * fftfpgaf_c2c_3d_bram (`threeD` true, N*N*N points) of this file: the
   * host writes d_inData, fetch streams it through the kernels, the last
   * kernel with a buffer argument (store in 2-D, transpose in 3-D) fills
   * d_outData, and the host reads d_outData back.
   */
  method CBram(threeD: bool, n: bv32, inpNull: bool, outNull: bool, inverse: bool, out0: Data)
    returns (valid: bool, out: Data, inFlags: MemFlags, outFlags: MemFlags, numPts: nat, readBack: Buf, phases: seq<Phase<Buf>>)
    ensures valid <==> EntryGuard(n, inpNull, outNull)
    ensures !valid ==> out == out0 && phases == []
    ensures valid ==> (inFlags, outFlags) == CBramFlags(threeD)
    ensures valid ==> DeviceReadable(inFlags) && DeviceWritable(outFlags)
    ensures valid ==> (threeD <==> inFlags.channel.Some? && inFlags.channel != outFlags.channel)
    ensures valid ==> numPts == (if threeD then (n as int) * (n as int) * (n as int) else (n as int) * (n as int))
    ensures valid ==> readBack == DOut && phases == [Phase([Command(1, None, Some(DIn))], [1]),
                                                     Phase(CBramKernels(threeD), [1, 2, 3, 4, 5]),
                                                     Phase([Command(1, Some(readBack), None)], [1])]
    ensures valid ==> out == Run(if threeD then Bram3d else Bram2d, inverse, Input(0))
    ensures AllRaceFree(phases)
  {
    inFlags, outFlags, numPts, readBack, phases := MemFlags(ReadWrite, None), MemFlags(ReadWrite, None), 0, DOut, [];
    if !EntryGuard(n, inpNull, outNull) {
      return false, out0, inFlags, outFlags, numPts, readBack, phases;
    }
    var m := n as int;
    inFlags, outFlags := CBramFlags(threeD).0, CBramFlags(threeD).1;
    numPts := if threeD then m * m * m else m * m;
    var mem: map<Buf, Data> := map[DIn := Unset, DOut := Unset];
    // blocking write of inp into d_inData on queue1, then clFinish(queue1)
    mem := mem[DIn := Input(0)];
    // fetch arg 0 is d_inData; store (2-D) or transpose (3-D) arg 0 is d_outData
    var kernels := CBramKernels(threeD);
    var fetch := kernels[0].input.value;
    var store := kernels[if threeD then 2 else 4].output.value;
    mem := mem[store := Run(if threeD then Bram3d else Bram2d, inverse, mem[fetch])];
    StreamingKernelsRaceFree();
    phases := [Phase([Command(1, None, Some(DIn))], [1]), Phase(kernels, [1, 2, 3, 4, 5]), Phase([Command(1, Some(readBack), None)], [1])];
    // blocking read of d_outData on queue1
    out := mem[readBack];
    valid := true;
  }

  /** Stage 1 of fftfpgaf_c2c_3d_ddr: fetch1 reads d_inData, store1 writes d_outData. */
  function Ddr3dStage1Kernels(): seq<Command<Buf>>
  {
    [Command(1, Some(DIn), None), Command(2, None, None), Command(3, None, None),
     Command(4, None, None), Command(5, None, Some(DOut))]
  }

  /** Stage 2 of fftfpgaf_c2c_3d_ddr: fetch2 reads d_outData, store2 writes d_inData. */
  function Ddr3dStage2Kernels(): seq<Command<Buf>>
  {
    [Command(1, Some(DOut), None), Command(2, None, None), Command(3, None, Some(DIn))]
  }

  /**
   * Each stage on its own is race-free, but the two stages cannot share a
   * phase: without the clFinish calls between them, fetch2 could read
   * d_outData while store1 is still writing it.
   */
  lemma StagesNeedBarrier()
    ensures RaceFree(Phase(Ddr3dStage1Kernels(), [1, 2, 3, 4, 5]))
    ensures RaceFree(Phase(Ddr3dStage2Kernels(), [1, 2, 3]))
    ensures !RaceFree(Phase(Ddr3dStage1Kernels() + Ddr3dStage2Kernels(), [1, 2, 3, 4, 5]))
  {
    OneReaderOneWriter(Phase(Ddr3dStage1Kernels(), [1, 2, 3, 4, 5]), 0, 4);
    OneReaderOneWriter(Phase(Ddr3dStage2Kernels(), [1, 2, 3]), 0, 2);
    var ks := Ddr3dStage1Kernels() + Ddr3dStage2Kernels();
    assert Races(ks[4], ks[5]);
  }

  /**
   * fftfpgaf_c2c_3d_ddr of this file: stage 1 runs from d_inData into
   * d_outData, all five stage-1 queues are finished, stage 2 runs from
   * d_outData back into d_inData, and the host reads d_inData.
   */
  method C2c3dDdr(n: bv32, inpNull: bool, outNull: bool, inverse: bool, out0: Data)
    returns (valid: bool, out: Data, readBack: Buf, phases: seq<Phase<Buf>>)
    ensures valid <==> EntryGuard(n, inpNull, outNull)
    ensures !valid ==> out == out0 && phases == []
    ensures valid ==> readBack == DIn
    ensures valid ==> |phases| == 4 && phases[1] == Phase(Ddr3dStage1Kernels(), [1, 2, 3, 4, 5])
    ensures valid ==> phases[2] == Phase(Ddr3dStage2Kernels(), [1, 2, 3])
    ensures valid ==> out == Run(Ddr3dStage2, inverse, Run(Ddr3dStage1, inverse, Input(0)))
    ensures AllRaceFree(phases)
  {
    readBack, phases := DIn, [];
    if !EntryGuard(n, inpNull, outNull) {
      return false, out0, readBack, phases;
    }
    var mem: map<Buf, Data> := map[DIn := Input(0), DOut := Unset, DTmp := Unset];
    StagesNeedBarrier();
    phases := [Phase([Command(1, None, Some(DIn))], [1])];
    // stage 1, then clFinish on queue1..queue5
    mem := mem[DOut := Run(Ddr3dStage1, inverse, mem[DIn])];
    phases := phases + [Phase(Ddr3dStage1Kernels(), [1, 2, 3, 4, 5])];
    // stage 2, then clFinish on queue1..queue3
    mem := mem[DIn := Run(Ddr3dStage2, inverse, mem[DOut])];
    phases := phases + [Phase(Ddr3dStage2Kernels(), [1, 2, 3])];
    phases := phases + [Phase([Command(1, Some(readBack), None)], [1])];
    out := mem[readBack];
    valid := true;
  }
}
