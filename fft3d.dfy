/**
 * Host logic of the single-precision 3-D FFT entry points of api/src/fft3d.c:
 * argument guards, which device buffer each kernel argument is bound to,
 * and the four-bank rotation of the batched DDR variant.
 *
 * Device buffers hold symbolic `Data`; a kernel pipeline bound to a source
 * and a destination buffer writes `Run(p, inverse, source contents)` to the
 * destination. Transfers and kernels that the source overlaps on separate
 * command queues are replayed one after another; `StepIsConflictFree` states
 * that the overlapped operations touch distinct banks, so the order of the
 * replay is immaterial.
 */
module Fft3d {
  import opened Common
  import opened Queues

  /** Buffers of the non-batched variants. */
  datatype Buf = DIn | DTranspose | DOut

  /**
   * fftfpgaf_c2c_3d_bram: the whole 3-D transform runs as one pipeline
   * from d_inData to d_outData, and the host reads d_outData back.
   */
  method C2c3dBram(n: bv32, inpNull: bool, outNull: bool, inverse: bool, interleaving: bool, out0: Data)
    returns (valid: bool, out: Data, inFlags: MemFlags, outFlags: MemFlags)
    ensures valid <==> !inpNull && !outNull && PassesPow2Guard(n)
    ensures !valid ==> out == out0
    ensures valid ==> out == Run(Bram3d, inverse, Input(0))
    ensures valid ==> (inFlags, outFlags) == BramFlags(interleaving)
    ensures valid ==> DeviceReadable(inFlags) && DeviceWritable(outFlags)
    ensures valid && !interleaving ==> inFlags.channel != outFlags.channel
  {
    BramFlagsFitKernels(interleaving);
    if inpNull || outNull || !PassesPow2Guard(n) {
      return false, out0, MemFlags(ReadWrite, None), MemFlags(ReadWrite, None);
    }
    inFlags, outFlags := BramFlags(interleaving).0, BramFlags(interleaving).1;
    var mem: map<Buf, Data> := map[DIn := Unset, DOut := Unset];
    mem := mem[DIn := Input(0)];                                // clEnqueueWriteBuffer(d_inData)
    var fetch, store := DIn, DOut;                             // fetch arg 0, store arg 0
    mem := mem[store := Run(Bram3d, inverse, mem[fetch])];
    out := mem[DOut];                                          // clEnqueueReadBuffer(d_outData)
    valid := true;
  }

  /** Buffer bindings of the two stages of the DDR variants. */
  datatype DdrBinding<B> = DdrBinding(fetch1: B, store1: B, fetch2: B, store2: B)

  /**
   * The kernel launches of fftfpgaf_c2c_3d_ddr, last stage first, with
   * fetch2 enqueued on queue `fetch2Queue`: store2, fft3dc, store1, fetch2,
   * fft3db, transpose, fft3da, fetch1.
   */
  function Ddr3dKernels(fetch2Queue: nat): seq<Command<Buf>>
  {
    [Command(7, None, Some(DOut)), Command(6, None, None),
     Command(5, None, Some(DTranspose)), Command(fetch2Queue, Some(DTranspose), None),
     Command(4, None, None), Command(3, None, None), Command(2, None, None),
     Command(1, Some(DIn), None)]
  }

  /**
   * Putting fetch2 on store1's queue is what orders the two stages: with
   * fetch2 on any other of the seven queues, it would read d_transpose while
   * store1 may still be writing it.
   */
  lemma Fetch2NeedsStore1Queue(q: nat)
    requires 1 <= q <= 7
    ensures RaceFree(Phase(Ddr3dKernels(q), [1, 2, 3, 4, 5, 6, 7])) <==> q == 5
  {
    var ks := Ddr3dKernels(q);
    if q != 5 {
      assert Races(ks[2], ks[3]);
    } else {
      // only store2 (index 0) and store1 (index 2) write; only fetch2 (index 3) touches d_transpose
      forall i, j | 0 <= i < j < |ks|
        ensures !Races(ks[i], ks[j])
      {
        assert ks[i].output.Some? ==> i == 0 || i == 2;
        assert ks[j].output.Some? ==> j == 2;
      }
    }
  }

  /**
   * fftfpgaf_c2c_3d_ddr: stage 1 streams d_inData into d_transpose and
   * stage 2 streams d_transpose into d_outData; the host reads d_outData.
   */
  method C2c3dDdr(n: bv32, inpNull: bool, outNull: bool, inverse: bool, out0: Data)
    returns (valid: bool, out: Data, binding: DdrBinding<Buf>, readBack: Buf, phases: seq<Phase<Buf>>)
    ensures valid <==> !inpNull && !outNull && PassesPow2Guard(n)
    ensures !valid ==> out == out0 && phases == []
    ensures valid ==> binding.store1 == binding.fetch2 == DTranspose
    ensures valid ==> readBack == binding.store2 && binding.fetch1 == DIn
    ensures valid ==> out == Run(Ddr3dStage2, inverse, Run(Ddr3dStage1, inverse, Input(0)))
    ensures valid ==> phases == [Phase([Command(1, None, Some(binding.fetch1))], [1]),
                                 Phase(Ddr3dKernels(5), [1, 2, 3, 4, 5, 6, 7]),
                                 Phase([Command(1, Some(readBack), None)], [1])]
    ensures AllRaceFree(phases)
  {
    binding, readBack, phases := DdrBinding(DIn, DIn, DIn, DIn), DIn, [];
    if inpNull || outNull || !PassesPow2Guard(n) {
      return false, out0, binding, readBack, phases;
    }
    var mem: map<Buf, Data> := map[DIn := Unset, DTranspose := Unset, DOut := Unset];
    // blocking write of inp into d_inData on queue1, then clFinish(queue1)
    phases := [Phase([Command(1, None, Some(DIn))], [1])];
    mem := mem[DIn := Input(0)];
    binding := DdrBinding(DIn, DTranspose, DTranspose, DOut);
    // store1 and fetch2 share queue5, so fetch2 starts once store1 has filled d_transpose
    Fetch2NeedsStore1Queue(5);
    phases := phases + [Phase(Ddr3dKernels(5), [1, 2, 3, 4, 5, 6, 7])];
    mem := mem[binding.store1 := Run(Ddr3dStage1, inverse, mem[binding.fetch1])];
    mem := mem[binding.store2 := Run(Ddr3dStage2, inverse, mem[binding.fetch2])];
    readBack := DOut;
    phases := phases + [Phase([Command(1, Some(readBack), None)], [1])];
    out := mem[readBack];
    valid := true;
  }

  // ---------------------------------------------------------------------
  // Batched DDR variant: four input, four transpose and four output banks

  /** A host/device transfer of batch `batch` to or from bank `bank` (0-based). */
  datatype Transfer = Transfer(batch: nat, bank: nat)

  /**
   * One round of overlapped work: an input transfer, a run of both stages
   * with the given bank bindings, and an output transfer, each optional.
   */
  datatype Step = Step(write: Option<Transfer>, run: Option<DdrBinding<nat>>, read: Option<Transfer>)

  /**
   * The overlapped operations of one step do not collide: the input bank
   * being filled is not the one fetch1 reads, the output bank being read
   * is not the one store2 writes, and store1 and fetch2 share one
   * transpose bank.
   */
  predicate StepIsConflictFree(s: Step)
  {
    && (s.write.Some? && s.run.Some? ==> s.write.value.bank != s.run.value.fetch1)
    && (s.read.Some? && s.run.Some? ==> s.read.value.bank != s.run.value.store2)
    && (s.run.Some? ==> s.run.value.store1 == s.run.value.fetch2)
  }

  /** The first two rounds: batch 0 is written alone, then batch 1 is written while batch 0 runs. */
  function PrologueSteps(): seq<Step>
  {
    [Step(Some(Transfer(0, 0)), None, None), Step(Some(Transfer(1, 1)), Some(BatchBinding(0)), None)]
  }

  /** Loop iterations 0 .. count-1: iteration i writes batch i+2, runs batch i+1 and reads batch i. */
  function LoopSteps(count: nat): seq<Step>
  {
    seq(count, i requires 0 <= i => Step(Some(Transfer(i + 2, (i + 2) % 4)), Some(BatchBinding(i + 1)), Some(Transfer(i, i % 4))))
  }

  /** The rounds after the loop: batch how_many-2 is read while the last batch runs, then the last batch is read. */
  function DrainSteps(howMany: nat): seq<Step>
    requires howMany >= 2
  {
    [Step(None, Some(BatchBinding(howMany - 1)), Some(Transfer(howMany - 2, (howMany - 2) % 4))),
     Step(None, None, Some(Transfer(howMany - 1, (howMany - 1) % 4)))]
  }

  /** Every round of fftfpgaf_c2c_3d_ddr_batch for how_many batches, in issue order. */
  function RotatedSteps(howMany: nat): seq<Step>
    requires howMany >= 2
  {
    PrologueSteps() + LoopSteps(howMany - 2) + DrainSteps(howMany)
  }

  /** Transfers of batches 0 .. count-1 in order, batch b through bank b mod 4. */
  function RotatedTransfers(count: nat): (ts: seq<Transfer>)
  {
    seq(count, b requires 0 <= b => Transfer(b, b % 4))
  }

  /** The bindings that process batch b: its input bank, transpose bank (b+2) mod 4 and output bank. */
  function BatchBinding(b: nat): DdrBinding<nat>
  {
    DdrBinding(b % 4, (b + 2) % 4, (b + 2) % 4, b % 4)
  }

  /** The runs of batches 0 .. count-1 in order. */
  function RotatedBindings(count: nat): seq<DdrBinding<nat>>
  {
    seq(count, b requires 0 <= b => BatchBinding(b))
  }

  /** What the host should read back for batch b. */
  function BatchResult(inverse: bool, b: nat): Data
  {
    Run(Ddr3dStage2, inverse, Run(Ddr3dStage1, inverse, Input(b)))
  }

  /** Banks chosen by one iteration of the batch loop. */
  datatype Round = Round(writeBank: nat, readBank: nat, run: DdrBinding<nat>)

  /**
   * The `i % 4` case split of loop iteration i: batch i+2 is written,
   * batch i is read back and batch i+1 runs. Each bank is the one the
   * rotation assigns to that batch.
   */
  function LoopRound(i: nat): (r: Round)
    ensures r.writeBank == (i + 2) % 4 && r.readBank == i % 4
    ensures r.run == BatchBinding(i + 1)
  {
    RotationArithmetic(i);
    if i % 4 == 0 then Round(2, 0, DdrBinding(1, 3, 3, 1))       // d_inData3, d_outData1, d_inData2, d_transpose4, d_outData2
    else if i % 4 == 1 then Round(3, 1, DdrBinding(2, 0, 0, 2))
    else if i % 4 == 2 then Round(0, 2, DdrBinding(3, 1, 1, 3))
    else Round(1, 3, DdrBinding(0, 2, 2, 0))
  }

  /**
   * The `how_many % 4` case split after the loop: batch how_many-2 is
   * read back while batch how_many-1 runs.
   */
  function TailRound(howMany: nat): (r: (nat, DdrBinding<nat>))
    requires howMany >= 2
    ensures r.0 == (howMany - 2) % 4
    ensures r.1 == BatchBinding(howMany - 1)
  {
    RotationArithmetic(howMany - 2);
    if howMany % 4 == 0 then (2, DdrBinding(3, 1, 1, 3))          // d_outData3, d_inData4, d_transpose2, d_outData4
    else if howMany % 4 == 1 then (3, DdrBinding(0, 2, 2, 0))
    else if howMany % 4 == 2 then (0, DdrBinding(1, 3, 3, 1))
    else (1, DdrBinding(2, 0, 0, 2))
  }

  /** The `how_many % 4` case split of the last read-back: the bank of batch how_many-1. */
  function FinalReadBank(howMany: nat): (bank: nat)
    requires howMany >= 1
    ensures bank == (howMany - 1) % 4
  {
    RotationArithmetic(howMany - 1);
    if howMany % 4 == 0 then 3
    else if howMany % 4 == 1 then 0
    else if howMany % 4 == 2 then 1
    else 2
  }

  /**
   * fftfpgaf_c2c_3d_ddr_batch. `out0` is the caller's output buffer, one
   * block per batch. `writes`, `runs` and `readBacks` list the input transfers,
   * kernel runs and output transfers in issue order; `steps` groups them
   * into the rounds the source overlaps.
   */
  method C2c3dDdrBatch(n: bv32, inpNull: bool, outNull: bool, inverse: bool, howMany: int, out0: seq<Data>)
    returns (valid: bool, out: seq<Data>, writes: seq<Transfer>, runs: seq<DdrBinding<nat>>,
             readBacks: seq<Transfer>, steps: seq<Step>)
    requires !outNull && howMany > 1 ==> |out0| == howMany
    ensures valid <==> !inpNull && !outNull && PassesPow2Guard(n) && howMany > 1
    ensures !valid ==> out == out0 && writes == [] && runs == [] && readBacks == [] && steps == []
    ensures valid ==> |out| == howMany && forall b :: 0 <= b < howMany ==> out[b] == BatchResult(inverse, b)
    ensures valid ==> writes == RotatedTransfers(howMany)
    ensures valid ==> readBacks == RotatedTransfers(howMany)
    ensures valid ==> runs == RotatedBindings(howMany)
    ensures valid ==> steps == RotatedSteps(howMany)
    ensures forall k :: 0 <= k < |steps| ==> StepIsConflictFree(steps[k])
  {
    if inpNull || outNull || !PassesPow2Guard(n) || howMany <= 1 {
      return false, out0, [], [], [], [];
    }
    out := out0;
    var inBanks := [Unset, Unset, Unset, Unset];
    var trBanks := [Unset, Unset, Unset, Unset];
    var outBanks := [Unset, Unset, Unset, Unset];

    // default bindings, then the blocking write of batch 0 into d_inData1
    var fetch1, store1, fetch2, store2 := 0, 2, 2, 0;
    inBanks := inBanks[0 := Input(0)];
    writes := [Transfer(0, 0)];
    steps := [Step(Some(Transfer(0, 0)), None, None)];

    // batch 1 goes to d_inData2 while batch 0 runs
    inBanks := inBanks[1 := Input(1)];
    trBanks := trBanks[store1 := Run(Ddr3dStage1, inverse, inBanks[fetch1])];
    outBanks := outBanks[store2 := Run(Ddr3dStage2, inverse, trBanks[fetch2])];
    writes := writes + [Transfer(1, 1)];
    runs := [DdrBinding(fetch1, store1, fetch2, store2)];
    readBacks := [];
    steps := steps + [Step(Some(Transfer(1, 1)), Some(runs[0]), None)];

    var i := 0;
    while i < howMany - 2
      invariant 0 <= i <= howMany - 2
      invariant |inBanks| == |trBanks| == |outBanks| == 4 && |out| == howMany
      invariant inBanks[(i + 1) % 4] == Input(i + 1)
      invariant outBanks[i % 4] == BatchResult(inverse, i)
      invariant forall b :: 0 <= b < i ==> out[b] == BatchResult(inverse, b)
      invariant |writes| == i + 2 && forall k :: 0 <= k < i + 2 ==> writes[k] == Transfer(k, k % 4)
      invariant |readBacks| == i && forall k :: 0 <= k < i ==> readBacks[k] == Transfer(k, k % 4)
      invariant |runs| == i + 1 && forall k :: 0 <= k < i + 1 ==> runs[k] == BatchBinding(k)
      invariant steps == PrologueSteps() + LoopSteps(i)
    {
      var round := LoopRound(i);
      var writeBank, readBank := round.writeBank, round.readBank;
      fetch1, store1, fetch2, store2 := round.run.fetch1, round.run.store1, round.run.fetch2, round.run.store2;
      inBanks := inBanks[writeBank := Input(i + 2)];
      out := out[i := outBanks[readBank]];
      trBanks := trBanks[store1 := Run(Ddr3dStage1, inverse, inBanks[fetch1])];
      outBanks := outBanks[store2 := Run(Ddr3dStage2, inverse, trBanks[fetch2])];
      var binding := DdrBinding(fetch1, store1, fetch2, store2);
      writes := writes + [Transfer(i + 2, writeBank)];
      runs := runs + [binding];
      readBacks := readBacks + [Transfer(i, readBank)];
      steps := steps + [Step(Some(Transfer(i + 2, writeBank)), Some(binding), Some(Transfer(i, readBank)))];
      assert LoopSteps(i + 1) == LoopSteps(i) + [LoopSteps(i + 1)[i]];
      i := i + 1;
    }

    RotatedStepsConflictFree(howMany);
    out, runs, readBacks, steps := BatchDrain(inverse, howMany, inBanks, trBanks, outBanks, out, runs, readBacks, steps);
    valid := true;
  }

  /**
   * After the loop of fftfpgaf_c2c_3d_ddr_batch: batch how_many-2 is read
   * back while the last batch runs (the `how_many % 4` case split), then
   * the last batch is read back.
   */
  method BatchDrain(inverse: bool, howMany: nat, inBanks: seq<Data>, trBanks: seq<Data>, outBanks: seq<Data>, out0: seq<Data>,
                    runs0: seq<DdrBinding<nat>>, readBacks0: seq<Transfer>, steps0: seq<Step>)
    returns (out: seq<Data>, runs: seq<DdrBinding<nat>>, readBacks: seq<Transfer>, steps: seq<Step>)
    requires howMany >= 2 && |inBanks| == |trBanks| == |outBanks| == 4 && |out0| == howMany
    requires inBanks[(howMany - 1) % 4] == Input(howMany - 1)
    requires outBanks[(howMany - 2) % 4] == BatchResult(inverse, howMany - 2)
    requires forall b :: 0 <= b < howMany - 2 ==> out0[b] == BatchResult(inverse, b)
    requires |readBacks0| == howMany - 2 && forall k :: 0 <= k < howMany - 2 ==> readBacks0[k] == Transfer(k, k % 4)
    requires |runs0| == howMany - 1 && forall k :: 0 <= k < howMany - 1 ==> runs0[k] == BatchBinding(k)
    requires forall k :: 0 <= k < |steps0| ==> StepIsConflictFree(steps0[k])
    ensures |out| == howMany && forall b :: 0 <= b < howMany ==> out[b] == BatchResult(inverse, b)
    ensures readBacks == RotatedTransfers(howMany)
    ensures runs == RotatedBindings(howMany)
    ensures steps == steps0 + DrainSteps(howMany)
    ensures forall k :: 0 <= k < |steps| ==> StepIsConflictFree(steps[k])
  {
    DrainConflictFree(howMany);
    var tail := TailRound(howMany);
    var readBank := tail.0;
    var fetch1, store1, fetch2, store2 := tail.1.fetch1, tail.1.store1, tail.1.fetch2, tail.1.store2;
    out := out0[howMany - 2 := outBanks[readBank]];
    var trBanks' := trBanks[store1 := Run(Ddr3dStage1, inverse, inBanks[fetch1])];
    var outBanks' := outBanks[store2 := Run(Ddr3dStage2, inverse, trBanks'[fetch2])];
    var binding := DdrBinding(fetch1, store1, fetch2, store2);
    runs := runs0 + [binding];
    readBacks := readBacks0 + [Transfer(howMany - 2, readBank)];
    steps := steps0 + [Step(None, Some(binding), Some(Transfer(howMany - 2, readBank)))];

    // final read of the last batch
    readBank := FinalReadBank(howMany);
    out := out[howMany - 1 := outBanks'[readBank]];
    readBacks := readBacks + [Transfer(howMany - 1, readBank)];
    steps := steps + [Step(None, None, Some(Transfer(howMany - 1, readBank)))];
  }

  /** Bank indices of consecutive batches, relative to the position of batch i in the rotation. */
  lemma RotationArithmetic(i: nat)
    ensures (i + 1) % 4 == (i % 4 + 1) % 4
    ensures (i + 2) % 4 == (i % 4 + 2) % 4
    ensures (i + 3) % 4 == (i % 4 + 3) % 4
  {
    var q := i / 4;
    assert i == 4 * q + i % 4;
    assert i + 1 == 4 * q + (i % 4 + 1);
    assert i + 2 == 4 * q + (i % 4 + 2);
    assert i + 3 == 4 * q + (i % 4 + 3);
  }

  /**
   * Round i of the loop never collides: batch i+2 goes to a different bank
   * than the one batch i+1 is fetched from, and batch i is read from a
   * different bank than the one batch i+1 is stored to.
   */
  lemma LoopRoundConflictFree(i: nat)
    ensures StepIsConflictFree(Step(Some(Transfer(i + 2, (i + 2) % 4)), Some(BatchBinding(i + 1)), Some(Transfer(i, i % 4))))
  {
    RotationArithmetic(i);
  }

  /** The two rounds after the loop never collide. */
  lemma DrainConflictFree(howMany: nat)
    requires howMany >= 2
    ensures forall k :: 0 <= k < |DrainSteps(howMany)| ==> StepIsConflictFree(DrainSteps(howMany)[k])
  {
    RotationArithmetic(howMany - 2);
  }

  /**
   * No round of the four-bank rotation writes a bank while it is read in
   * the same round, whatever the number of batches.
   */
  lemma RotatedStepsConflictFree(howMany: nat)
    requires howMany >= 2
    ensures forall k :: 0 <= k < |RotatedSteps(howMany)| ==> StepIsConflictFree(RotatedSteps(howMany)[k])
  {
    var steps := RotatedSteps(howMany);
    forall k | 0 <= k < |steps|
      ensures StepIsConflictFree(steps[k])
    {
      if k < 2 {
      } else if k < 2 + (howMany - 2) {
        LoopRoundConflictFree(k - 2);
      } else {
        DrainConflictFree(howMany);
      }
    }
  }

  /**
   * Every batch b < how_many is transferred exactly once, and through the
   * bank b mod 4.
   */
  lemma ExactlyOnce(count: nat, b: nat)
    requires b < count
    ensures |set k | 0 <= k < |RotatedTransfers(count)| && RotatedTransfers(count)[k].batch == b| == 1
    ensures forall k :: 0 <= k < |RotatedTransfers(count)| && RotatedTransfers(count)[k].batch == b ==>
      RotatedTransfers(count)[k].bank == b % 4
  {
    var ts := RotatedTransfers(count);
    assert (set k | 0 <= k < |ts| && ts[k].batch == b) == {b};
  }

  /** The run that processes batch b fetches from the bank batch b was written to and stores into the bank it is read back from. */
  lemma RunMatchesTransfers(count: nat, b: nat)
    requires b < count
    ensures RotatedBindings(count)[b].fetch1 == RotatedTransfers(count)[b].bank
    ensures RotatedBindings(count)[b].store2 == RotatedTransfers(count)[b].bank
  {
  }
}
