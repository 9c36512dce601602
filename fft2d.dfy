/**
 * Host logic of the single-precision 2-D FFT entry points of api/src/fft2d.c:
 * the two-pass DDR variant, the BRAM variant and its shared-virtual-memory
 * counterpart.
 */
module Fft2d {
  import opened Common
  import opened Queues

  /** Buffers of the DDR variant. */
  datatype Buf = DIn | DOut | DTmp

  /** Flags each DDR-variant buffer is created with (api/src/fft2d.c:41-48). */
  function DdrFlags(b: Buf): MemFlags
  {
    match b
    case DIn => MemFlags(ReadOnly, None)
    case DOut => MemFlags(WriteOnly, None)
    case DTmp => MemFlags(ReadWrite, Some(2))
  }

  /** One pass of the DDR loop: the buffers bound to fetch and transpose and the NDRange sizes. */
  datatype Pass = Pass(fetch: Buf, transpose: Buf, local: nat, global: nat)

  /** Local and global work sizes of one pass: N and N*N/8. */
  function PassGeometry(n: bv32): (g: (nat, nat))
  {
    var m: nat := n as int;
    var square: nat := m * m;
    (m, square / 8)
  }

  /**
   * When N is a multiple of 8 (every power of two from 8 up), the global
   * size is a whole number of work-groups, N/8 of them.
   */
  lemma GeometryDivides(n: bv32)
    requires (n as int) % 8 == 0 && n != 0
    ensures PassGeometry(n).1 % PassGeometry(n).0 == 0
    ensures PassGeometry(n).1 / PassGeometry(n).0 == (n as int) / 8
  {
    var m: nat := n as int;
    var q := m / 8;
    assert m == 8 * q;
    var square := m * m;
    ScaleLeft(q, m);
    ExactQuotient(square, 8, q * m);
    ExactQuotient(q * m, m, q);
    assert PassGeometry(n) == (m, square / 8);
  }

  lemma ScaleLeft(q: int, m: int)
    requires m == 8 * q
    ensures m * m == (q * m) * 8
  {
  }

  /** The commands of one DDR pass: fetch on queue1, fft2d on queue2, transpose on queue3. */
  function PassCommands(fetch: Buf, transpose: Buf): seq<Command<Buf>>
  {
    [Command(1, Some(fetch), None), Command(2, None, None), Command(3, None, Some(transpose))]
  }

  /** A pass that fetches and transposes through different buffers cannot race with itself. */
  lemma PassIsRaceFree(fetch: Buf, transpose: Buf)
    requires fetch != transpose
    ensures RaceFree(Phase(PassCommands(fetch, transpose), [1, 2, 3]))
  {
    OneReaderOneWriter(Phase(PassCommands(fetch, transpose), [1, 2, 3]), 0, 2);
  }

  /**
   * The clFinish calls at the end of each pass are needed: issued as one
   * phase, the second fetch could read d_tmp while the first transpose is
   * still writing it.
   */
  lemma PassesNeedFinish()
    ensures !RaceFree(Phase(PassCommands(DIn, DTmp) + PassCommands(DTmp, DOut), [1, 2, 3]))
  {
    var ks := PassCommands(DIn, DTmp) + PassCommands(DTmp, DOut);
    assert Races(ks[2], ks[3]);
  }

  /**
   * fftfpgaf_c2c_2d_ddr: row pass from d_inData into d_tmp, then column
   * pass from d_tmp into d_outData, which the host reads back.
   */
  method C2c2dDdr(n: bv32, inpNull: bool, outNull: bool, inverse: bool, out0: Data)
    returns (valid: bool, out: Data, passes: seq<Pass>, readBack: Buf, phases: seq<Phase<Buf>>)
    ensures valid <==> !inpNull && !outNull && PassesPow2Guard(n)
    ensures !valid ==> out == out0 && passes == [] && phases == []
    ensures valid ==> |passes| == 2 && passes[0].fetch == DIn && passes[1].transpose == readBack == DOut
    ensures valid ==> passes[0].transpose == passes[1].fetch == DTmp
    ensures valid ==> forall p :: 0 <= p < 2 ==>
      && DeviceReadable(DdrFlags(passes[p].fetch)) && DeviceWritable(DdrFlags(passes[p].transpose))
      && (passes[p].local, passes[p].global) == PassGeometry(n)
    ensures valid ==> out == Run(Pass2d, inverse, Run(Pass2d, inverse, Input(0)))
    ensures valid ==> |phases| == 4 && forall p :: 1 <= p <= 2 ==>
      phases[p] == Phase(PassCommands(passes[p - 1].fetch, passes[p - 1].transpose), [1, 2, 3])
    ensures valid ==> phases[0] == Phase([Command(1, None, Some(DIn))], [1]) && phases[3] == Phase([Command(1, Some(readBack), None)], [1])
    ensures AllRaceFree(phases)
  {
    readBack := DOut;
    if inpNull || outNull || !PassesPow2Guard(n) {
      return false, out0, [], readBack, [];
    }
    // blocking write of inp into d_inData on queue1, then clFinish(queue1)
    phases := [Phase([Command(1, None, Some(DIn))], [1])];
    var mem: map<Buf, Data> := map[DIn := Input(0), DOut := Unset, DTmp := Unset];
    passes := [];
    var i := 0;
    while i < 2
      invariant 0 <= i <= 2 && |passes| == i
      invariant DIn in mem && DOut in mem && DTmp in mem
      invariant forall p :: 0 <= p < i ==> passes[p] == Pass(if p == 0 then DIn else DTmp, if p == 0 then DTmp else DOut, PassGeometry(n).0, PassGeometry(n).1)
      invariant i >= 1 ==> mem[DTmp] == Run(Pass2d, inverse, Input(0))
      invariant i == 2 ==> mem[DOut] == Run(Pass2d, inverse, Run(Pass2d, inverse, Input(0)))
      invariant i < 2 ==> mem[DIn] == Input(0)
      invariant |phases| == i + 1 && AllRaceFree(phases) && phases[0] == Phase([Command(1, None, Some(DIn))], [1])
      invariant forall p :: 1 <= p <= i ==> phases[p] == Phase(PassCommands(passes[p - 1].fetch, passes[p - 1].transpose), [1, 2, 3])
    {
      var fetch := if i == 0 then DIn else DTmp;
      var transpose := if i == 0 then DTmp else DOut;
      var geometry := PassGeometry(n);
      mem := mem[transpose := Run(Pass2d, inverse, mem[fetch])];
      passes := passes + [Pass(fetch, transpose, geometry.0, geometry.1)];
      // fetch, fft2d and transpose, then clFinish on queues 1 to 3
      PassIsRaceFree(fetch, transpose);
      phases := phases + [Phase(PassCommands(fetch, transpose), [1, 2, 3])];
      i := i + 1;
    }
    phases := phases + [Phase([Command(1, Some(readBack), None)], [1])];
    out := mem[readBack];
    valid := true;
  }

  /** Elements of `how_many` N x N transforms. */
  function NumPts2d(n: bv32, howMany: nat): nat
  {
    var m: nat := n as int;
    var square: nat := m * m;
    howMany * square
  }

  /**
   * fftfpgaf_c2c_2d_bram: the whole 2-D pipeline streams d_inData into
   * d_outData; both buffers and both transfers cover how_many*N*N elements.
   */
  method C2c2dBram(n: bv32, inpNull: bool, outNull: bool, inverse: bool, interleaving: bool, howMany: nat, out0: Data)
    returns (valid: bool, out: Data, inFlags: MemFlags, outFlags: MemFlags, bufferElems: nat, transferElems: nat)
    ensures valid <==> !inpNull && !outNull && PassesPow2Guard(n)
    ensures !valid ==> out == out0
    ensures valid ==> out == Run(Bram2d, inverse, Input(0))
    ensures valid ==> (inFlags, outFlags) == BramFlags(interleaving)
    ensures valid ==> bufferElems == transferElems == NumPts2d(n, howMany)
  {
    inFlags, outFlags := MemFlags(ReadWrite, None), MemFlags(ReadWrite, None);
    bufferElems, transferElems := 0, 0;
    if inpNull || outNull || !PassesPow2Guard(n) {
      return false, out0, inFlags, outFlags, bufferElems, transferElems;
    }
    var numPts := NumPts2d(n, howMany);
    inFlags, outFlags := BramFlags(interleaving).0, BramFlags(interleaving).1;
    bufferElems := numPts;
    var dIn, dOut := Input(0), Unset;                    // write num_pts elements of inp
    dOut := Run(Bram2d, inverse, dIn);
    transferElems := numPts;
    out := dOut;                                          // read num_pts elements into out
    valid := true;
  }

  /**
   * fftfpgaf_c2c_2d_bram_svm. The host copies inp into the SVM input
   * buffer and zeroes the SVM output buffer element by element, the
   * kernels leave `deviceResult` in the output buffer, and the host copies
   * that into out. `launchIn` and `launchOut` are the SVM buffers'
   * contents when the kernels start.
   */
  method C2c2dBramSvm(n: bv32, inp: array?<Complex>, out: array?<Complex>, inverse: bool, howMany: nat,
                      svmEnabled: bool, deviceResult: seq<Complex>)
    returns (valid: bool, launchIn: seq<Complex>, launchOut: seq<Complex>)
    requires inp != null ==> inp.Length >= NumPts2d(n, howMany)
    requires out != null ==> out.Length >= NumPts2d(n, howMany) && out != inp
    requires |deviceResult| == NumPts2d(n, howMany)
    modifies out
    ensures valid <==> inp != null && out != null && PassesPow2Guard(n) && svmEnabled
    ensures !valid ==> out == null || unchanged(out)
    ensures valid ==> launchIn == inp[..NumPts2d(n, howMany)]
    ensures valid ==> launchOut == seq(NumPts2d(n, howMany), _ => Zero)
    ensures valid ==> out[..NumPts2d(n, howMany)] == deviceResult
    ensures valid ==> out[NumPts2d(n, howMany)..] == old(out[NumPts2d(n, howMany)..])
  {
    launchIn, launchOut := [], [];
    if inp == null || out == null || !PassesPow2Guard(n) || !svmEnabled {
      return false, launchIn, launchOut;
    }
    var numPts := NumPts2d(n, howMany);
    var hIn := new Complex[numPts];
    var hOut := new Complex[numPts];
    CopyElements(hIn, inp, numPts);
    ZeroElements(hOut, numPts);
    launchIn, launchOut := hIn[..], hOut[..];
    forall i | 0 <= i < numPts {
      hOut[i] := deviceResult[i];
    }
    CopyElements(out, hOut, numPts);
    valid := true;
  }
}
