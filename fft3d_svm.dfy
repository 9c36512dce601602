/**
 * Host logic of the shared-virtual-memory 3-D FFT entry points of
 * api/src/fft3d_svm.c. The fetch and store kernels read and write host
 * SVM blocks directly; the transpose3D kernel writes its incoming stream
 * into one DDR buffer (argument 0) and reads its outgoing stream from
 * another (argument 1), as its mode selects.
 */
module Fft3dSvm {
  import opened Common

  /** The transpose3D mode argument: WR_GLOBALMEM (0), RD_GLOBALMEM (1), BATCH (2). */
  datatype Mode = WrGlobalMem | RdGlobalMem | Batch

  /** Elements of an N x N x N transform. */
  function NumPts(n: bv32): nat
  {
    var m: nat := n as int;
    var square: nat := m * m;
    square * m
  }

  /**
   * One transpose3D launch over DDR buffers `ddr`: it writes `incoming`
   * into buffer `arg0` unless the mode only reads, and returns the contents
   * of buffer `arg1` as its outgoing stream unless the mode only writes.
   * In BATCH mode the outgoing stream is read before the write, which is
   * only a faithful replay when the two buffers differ.
   */
  function Transpose3d(mode: Mode, ddr: seq<Data>, arg0: nat, arg1: nat, incoming: Data): (r: (seq<Data>, Option<Data>))
    requires arg0 < |ddr| && arg1 < |ddr|
    ensures |r.0| == |ddr|
    ensures r.1.Some? <==> mode != WrGlobalMem
    ensures mode == RdGlobalMem ==> r.0 == ddr
  {
    match mode
    case WrGlobalMem => (ddr[arg0 := incoming], None)
    case RdGlobalMem => (ddr, Some(ddr[arg1]))
    case Batch => (ddr[arg0 := incoming], Some(ddr[arg1]))
  }

  /**
   * fftfpgaf_c2c_3d_ddr_svm: one transform through a single DDR buffer,
   * first written (WR_GLOBALMEM) and then read (RD_GLOBALMEM).
   * `hIn` is the SVM input block after the memcpy.
   */
  method C2c3dDdrSvm(n: bv32, inp: Option<seq<Complex>>, outNull: bool, inverse: bool, interleaving: bool,
                     svmEnabled: bool, out0: Data)
    returns (valid: bool, hIn: seq<Complex>, out: Data, ddrFlags: MemFlags, args: (nat, nat), modes: seq<Mode>)
    requires inp.Some? ==> |inp.value| == NumPts(n)
    ensures valid <==> inp.Some? && !outNull && PassesPow2Guard(n) && svmEnabled
    ensures !valid ==> out == out0 && modes == []
    ensures valid ==> hIn == inp.value
    ensures valid ==> args.0 == args.1 && modes == [WrGlobalMem, RdGlobalMem]
    ensures valid ==> out == Run(Svm3dFromDdr, inverse, Run(Svm3dToDdr, inverse, Input(0)))
    ensures valid ==> DeviceReadable(ddrFlags) && DeviceWritable(ddrFlags)
    ensures valid ==> (ddrFlags.channel.None? <==> interleaving)
  {
    ddrFlags, args, modes, hIn := MemFlags(ReadWrite, None), (0, 0), [], [];
    if inp.None? || outNull || !PassesPow2Guard(n) || !svmEnabled {
      return false, hIn, out0, ddrFlags, args, modes;
    }
    ddrFlags := if !interleaving then MemFlags(ReadWrite, Some(1)) else MemFlags(ReadWrite, None);
    hIn := inp.value;                                    // memcpy(h_inData, inp, num_bytes)
    var hOut := Zeros;                                   // memset(h_outData, 0, num_bytes)
    var ddr := [Unset];
    args := (0, 0);                                      // both arguments are d_inOutData
    var written := Transpose3d(WrGlobalMem, ddr, args.0, args.1, Run(Svm3dToDdr, inverse, Input(0)));
    ddr := written.0;
    var read := Transpose3d(RdGlobalMem, ddr, args.0, args.1, Unset);
    modes := [WrGlobalMem, RdGlobalMem];
    hOut := Run(Svm3dFromDdr, inverse, read.1.value);    // store kernel writes h_outData
    out := hOut;                                         // memcpy(out, h_outData, num_bytes)
    valid := true;
  }

  /**
   * The copy-in loop of the batched variant: block b of `inp` is copied
   * into `hIn[b]` and every output block is zeroed.
   */
  method CopyInBatches(inp: seq<Complex>, numPts: nat, howMany: nat)
    returns (hIn: seq<seq<Complex>>, hOut: seq<Data>)
    requires |inp| == howMany * numPts
    ensures |hIn| == howMany && |hOut| == howMany
    ensures forall b :: 0 <= b < howMany ==> b * numPts + numPts <= |inp| && hIn[b] == inp[b * numPts .. b * numPts + numPts]
    ensures forall b :: 0 <= b < howMany ==> hOut[b] == Zeros
  {
    hIn, hOut := [], [];
    var i := 0;
    while i < howMany
      invariant 0 <= i <= howMany
      invariant |hIn| == i && |hOut| == i
      invariant forall b :: 0 <= b < i ==> b * numPts + numPts <= |inp| && hIn[b] == inp[b * numPts .. b * numPts + numPts]
      invariant forall b :: 0 <= b < i ==> hOut[b] == Zeros
    {
      BlockBounds(i, howMany, numPts);
      hIn := hIn + [inp[i * numPts .. i * numPts + numPts]];
      hOut := hOut + [Zeros];
      i := i + 1;
    }
  }

  /** Concatenation of blocks, as the copy-out loop lays them out in `out`. */
  function Concat<T>(blocks: seq<seq<T>>): seq<T>
  {
    if blocks == [] then [] else Concat(blocks[..|blocks| - 1]) + blocks[|blocks| - 1]
  }

  /** Copying the input out block by block again gives back the input: copy-in and copy-out use the same layout. */
  lemma {:induction false} ConcatOfBlocks(inp: seq<Complex>, numPts: nat, howMany: nat, blocks: seq<seq<Complex>>)
    requires |inp| == howMany * numPts && |blocks| == howMany
    requires forall b :: 0 <= b < howMany ==> b * numPts + numPts <= |inp| && blocks[b] == inp[b * numPts .. b * numPts + numPts]
    ensures Concat(blocks) == inp
  {
    PrefixConcat(inp, numPts, howMany, blocks, howMany);
    assert blocks[..howMany] == blocks;
    assert inp[..howMany * numPts] == inp;
  }

  lemma {:induction false} PrefixConcat(inp: seq<Complex>, numPts: nat, howMany: nat, blocks: seq<seq<Complex>>, k: nat)
    requires |inp| == howMany * numPts && |blocks| == howMany && k <= howMany
    requires forall b :: 0 <= b < howMany ==> b * numPts + numPts <= |inp| && blocks[b] == inp[b * numPts .. b * numPts + numPts]
    ensures k * numPts <= |inp| && Concat(blocks[..k]) == inp[..k * numPts]
    decreases k
  {
    if k == 0 {
      assert blocks[..0] == [];
    } else {
      PrefixConcat(inp, numPts, howMany, blocks, k - 1);
      var lo := (k - 1) * numPts;
      assert lo + numPts == k * numPts by {
        assert k * numPts == (k - 1) * numPts + numPts;
      }
      assert blocks[..k][..k - 1] == blocks[..k - 1];
      assert blocks[k - 1] == inp[lo .. lo + numPts];
      assert Concat(blocks[..k]) == Concat(blocks[..k - 1]) + blocks[k - 1];
      assert inp[..lo + numPts] == inp[..lo] + inp[lo .. lo + numPts];
    }
  }

  /** One launch of the batched schedule. */
  datatype SvmRound = SvmRound(fetch: Option<nat>, arg0: nat, arg1: nat, mode: Mode, store: Option<nat>)

  /**
   * Round i (0 < i < number of batches) fetches batch i into one DDR
   * buffer in BATCH mode while storing batch i-1 from the other, the one
   * round i-1 wrote.
   */
  predicate Overlapped(rounds: seq<SvmRound>, i: nat)
    requires 1 <= i < |rounds|
  {
    && rounds[i].fetch == Some(i) && rounds[i].mode == Batch && rounds[i].store == Some(i - 1)
    && rounds[i].arg0 != rounds[i].arg1 && rounds[i].arg1 == rounds[i - 1].arg0
  }

  /** What the host should find in output block b. */
  function SvmResult(inverse: bool, b: nat): Data
  {
    Run(Svm3dFromDdr, inverse, Run(Svm3dToDdr, inverse, Input(b)))
  }

  /**
   * The launch sequence of fftfpgaf_c2c_3d_ddr_svm_batch: a write-only
   * launch for batch 0, one combined launch per further batch that writes
   * batch i into one DDR buffer and reads batch i-1 from the other, and a
   * read-only launch that drains the last batch.
   */
  method SvmSchedule(inverse: bool, howMany: nat, hOut0: seq<Data>) returns (hOut: seq<Data>, rounds: seq<SvmRound>)
    requires howMany >= 1 && |hOut0| == howMany
    ensures |hOut| == howMany && forall b :: 0 <= b < howMany ==> hOut[b] == SvmResult(inverse, b)
    ensures |rounds| == howMany + 1
    ensures rounds[0] == SvmRound(Some(0), 1, 0, WrGlobalMem, None)
    ensures forall i :: 1 <= i < howMany ==> Overlapped(rounds, i)
    ensures rounds[howMany].fetch == None && rounds[howMany].mode == RdGlobalMem
    ensures rounds[howMany].arg1 == rounds[howMany - 1].arg0 && rounds[howMany].store == Some(howMany - 1)
  {
    hOut := hOut0;
    var ddr := [Unset, Unset];

    // first batch: write phase only, into d_inOutData_1
    var arg0, arg1, mode := 1, 0, WrGlobalMem;
    var launch := Transpose3d(mode, ddr, arg0, arg1, Run(Svm3dToDdr, inverse, Input(0)));
    ddr := launch.0;
    rounds := [SvmRound(Some(0), arg0, arg1, mode, None)];

    var i := 1;
    while i < howMany
      invariant 1 <= i <= howMany
      invariant |ddr| == 2 && |hOut| == howMany
      invariant arg0 == i % 2 && ddr[arg0] == Run(Svm3dToDdr, inverse, Input(i - 1))
      invariant forall b :: 0 <= b < i - 1 ==> hOut[b] == SvmResult(inverse, b)
      invariant |rounds| == i && rounds[i - 1].arg0 == arg0
      invariant rounds[0] == SvmRound(Some(0), 1, 0, WrGlobalMem, None)
      invariant forall j :: 1 <= j < i ==> Overlapped(rounds, j)
    {
      ghost var prev := arg0;
      arg0 := if i % 2 == 1 then 0 else 1;
      arg1 := if i % 2 == 1 then 1 else 0;
      assert arg1 == prev && arg0 != arg1 && arg0 == (i + 1) % 2;
      mode := Batch;
      launch := Transpose3d(mode, ddr, arg0, arg1, Run(Svm3dToDdr, inverse, Input(i)));
      ddr := launch.0;
      hOut := hOut[i - 1 := Run(Svm3dFromDdr, inverse, launch.1.value)];
      var next := rounds + [SvmRound(Some(i), arg0, arg1, mode, Some(i - 1))];
      forall j | 1 <= j <= i
        ensures Overlapped(next, j)
      {
        if j < i {
          assert Overlapped(rounds, j);
          assert next[j] == rounds[j] && next[j - 1] == rounds[j - 1];
        }
      }
      rounds := next;
      i := i + 1;
    }

    // drain: read the buffer holding the last batch
    ghost var last := arg0;
    arg0 := if howMany % 2 == 0 then 1 else 0;
    arg1 := if howMany % 2 == 0 then 0 else 1;
    assert arg1 == last;
    mode := RdGlobalMem;
    launch := Transpose3d(mode, ddr, arg0, arg1, Unset);
    hOut := hOut[howMany - 1 := Run(Svm3dFromDdr, inverse, launch.1.value)];
    var drained := rounds + [SvmRound(None, arg0, arg1, mode, Some(howMany - 1))];
    forall j | 1 <= j < howMany
      ensures Overlapped(drained, j)
    {
      assert Overlapped(rounds, j);
      assert drained[j] == rounds[j] && drained[j - 1] == rounds[j - 1];
    }
    rounds := drained;

  }

  /**
   * fftfpgaf_c2c_3d_ddr_svm_batch: batch i is fetched from `hIn[i]` and
   * written into one DDR buffer while the other buffer, which holds batch
   * i-1, is read and stored into output block i-1. `Input(b)` names the
   * block the fetch kernel reads from `hIn[b]`.
   */
  method C2c3dDdrSvmBatch(n: bv32, inp: Option<seq<Complex>>, outNull: bool, inverse: bool, howMany: nat,
                          svmEnabled: bool, out0: seq<Data>)
    returns (valid: bool, hIn: seq<seq<Complex>>, out: seq<Data>, rounds: seq<SvmRound>)
    requires inp.Some? ==> |inp.value| == howMany * NumPts(n)
    requires !outNull ==> |out0| == howMany
    ensures valid <==> inp.Some? && !outNull && PassesPow2Guard(n) && howMany != 0 && svmEnabled
    ensures !valid ==> out == out0 && rounds == []
    ensures valid ==> |hIn| == howMany && Concat(hIn) == inp.value
    ensures valid ==> |out| == howMany && forall b :: 0 <= b < howMany ==> out[b] == SvmResult(inverse, b)
    ensures valid ==> |rounds| == howMany + 1
    ensures valid ==> rounds[0] == SvmRound(Some(0), 1, 0, WrGlobalMem, None)
    ensures valid ==> forall i :: 1 <= i < howMany ==> Overlapped(rounds, i)
    ensures valid ==> rounds[howMany].fetch == None && rounds[howMany].mode == RdGlobalMem
    ensures valid ==> rounds[howMany].arg1 == rounds[howMany - 1].arg0 && rounds[howMany].store == Some(howMany - 1)
  {
    if inp.None? || outNull || !PassesPow2Guard(n) || howMany == 0 || !svmEnabled {
      return false, [], out0, [];
    }
    var hOut;
    hIn, hOut := CopyInBatches(inp.value, NumPts(n), howMany);
    ConcatOfBlocks(inp.value, NumPts(n), howMany, hIn);
    hOut, rounds := SvmSchedule(inverse, howMany, hOut);

    // copy-out: block b of out comes from h_outData[b]
    out := out0;
    var k := 0;
    while k < howMany
      invariant 0 <= k <= howMany && |out| == howMany
      invariant forall b :: 0 <= b < k ==> out[b] == hOut[b]
    {
      out := out[k := hOut[k]];
      k := k + 1;
    }
    valid := true;
  }
}
