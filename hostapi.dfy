/**
 * src/host/api/fft_fpga.c: the bitstream-size cache of
 * fpga_check_bitstream_, the direction mapping of fpga_fft3d_sp_ and
 * fpga_fft3d_dp_, and the in-place run of fftfpga_run_3d. init_program and
 * cleanup_program appear as the events they cause; the device result of
 * the FFT kernels is a parameter.
 */
module HostApi {
  import opened Common
  import opened Queues

  /** A supported bitstream exists for 16^3, 32^3 and 64^3. */
  predicate Supported(n: seq<int>)
  {
    n == [16, 16, 16] || n == [32, 32, 32] || n == [64, 64, 64]
  }

  /** What fpga_check_bitstream_ sets in motion. */
  datatype ProgramEvent = InitProgram(size: seq<int>, dataPath: string) | CleanupProgram

  /**
   * One call of fpga_check_bitstream_ on the cached size `cache`: the
   * result, the new cache and the events, as the if/else chain decides.
   */
  datatype CheckOutcome = CheckOutcome(result: int, cache: seq<int>, events: seq<ProgramEvent>)

  function CheckStep(cache: seq<int>, n: seq<int>, dataPath: string): (o: CheckOutcome)
    ensures o.result == 1 <==> Supported(n)
    ensures o.result == 0 || o.result == 1
    ensures !Supported(n) ==> o.cache == cache && o.events == []
    ensures Supported(n) ==> o.cache == n
    ensures Supported(n) && cache == n ==> o.events == []
    ensures Supported(n) && cache != n ==> o.events != [] && o.events[|o.events| - 1] == InitProgram(n, dataPath)
  {
    if !Supported(n) then CheckOutcome(0, cache, [])
    else if cache == [0, 0, 0] then CheckOutcome(1, n, [InitProgram(n, dataPath)])
    else if cache == n then CheckOutcome(1, cache, [])
    else CheckOutcome(1, n, [CleanupProgram, InitProgram(n, dataPath)])
  }

  /** The cache is all zero or one of the supported cubes. */
  predicate CacheInvariant(cache: seq<int>)
  {
    cache == [0, 0, 0] || Supported(cache)
  }

  /**
   * Every call keeps the cache invariant, and a program is initialised
   * at most once per call, after the old one is released when there was
   * one.
   */
  lemma CheckStepKeepsInvariant(cache: seq<int>, n: seq<int>, dataPath: string)
    requires CacheInvariant(cache)
    ensures CacheInvariant(CheckStep(cache, n, dataPath).cache)
    ensures cache == [0, 0, 0] && Supported(n) ==> CheckStep(cache, n, dataPath).events == [InitProgram(n, dataPath)]
    ensures cache != [0, 0, 0] && Supported(n) && cache != n ==>
      CheckStep(cache, n, dataPath).events == [CleanupProgram, InitProgram(n, dataPath)]
  {
  }

  /**
   * Repeating a call changes nothing: the second call with the same size
   * returns the same result, keeps the cache and causes no event.
   */
  lemma {:induction false} CheckStepIdempotent(cache: seq<int>, n: seq<int>, dataPath: string)
    ensures var o := CheckStep(cache, n, dataPath);
      var o2 := CheckStep(o.cache, n, dataPath);
      o2.result == o.result && o2.cache == o.cache && o2.events == []
  {
    var o := CheckStep(cache, n, dataPath);
    if Supported(n) {
      assert o.cache == n;
    }
  }

  /** The `static int fft_size[3]` of fpga_check_bitstream_ and the program events so far. */
  class BitstreamCache {
    var fftSize: seq<int>
    var events: seq<ProgramEvent>

    predicate Valid()
      reads this
    {
      CacheInvariant(fftSize)
    }

    /** Program start: the cache is {0, 0, 0}. */
    constructor ()
      ensures Valid() && fftSize == [0, 0, 0] && events == []
    {
      fftSize := [0, 0, 0];
      events := [];
    }

    /** fpga_check_bitstream_(data_path, N). */
    method Check(dataPath: string, n: seq<int>) returns (r: int)
      requires Valid() && |n| == 3
      modifies this
      ensures Valid()
      ensures r == CheckStep(old(fftSize), n, dataPath).result
      ensures fftSize == CheckStep(old(fftSize), n, dataPath).cache
      ensures events == old(events) + CheckStep(old(fftSize), n, dataPath).events
    {
      CheckStepKeepsInvariant(fftSize, n, dataPath);
      if Supported(n) {
        if fftSize[0] == 0 && fftSize[1] == 0 && fftSize[2] == 0 {
          fftSize := [n[0], n[1], n[2]];
          events := events + [InitProgram(fftSize, dataPath)];
        } else if fftSize[0] == n[0] && fftSize[1] == n[1] && fftSize[2] == n[2] {
        } else {
          fftSize := [n[0], n[1], n[2]];
          events := events + [CleanupProgram];
          events := events + [InitProgram(fftSize, dataPath)];
        }
        assert fftSize == n;
        return 1;
      } else {
        return 0;
      }
    }
  }

  /** inverse flag fpga_fft3d_sp_ and fpga_fft3d_dp_ pass on: forward only for direction 1. */
  function InverseFlag(direction: int): (inverse: int)
    ensures inverse == 0 <==> direction == 1
    ensures inverse == 0 || inverse == 1
  {
    if direction == 1 then 0 else 1
  }

  /** Buffers of fftfpga_run_3d. */
  datatype Buf = DIn | DOut

  /**
   * The kernels of fftfpga_run_3d: fetch reads d_inData on queue1, fft3da,
   * transpose (which writes d_outData), fft3db and transpose3d on queues 2
   * to 5.
   */
  function Run3dKernels(): seq<Command<Buf>>
  {
    [Command(1, Some(DIn), None), Command(2, None, None), Command(3, None, Some(DOut)),
     Command(4, None, None), Command(5, None, None)]
  }

  /**
   * fftfpga_run_3d on N = (n0, n1, n2): c_in's first n0*n1*n2 samples are
   * copied in, written to d_inData on queue6, transformed by the five
   * kernels, read back from d_outData and copied over the same samples of
   * c_in. `deviceResult` is what the kernels leave in d_outData.
   */
  method Run3d(inverse: int, n0: nat, n1: nat, n2: nat, cIn: array<Complex>, deviceResult: seq<Complex>)
    returns (inverseArg: int, launchIn: seq<Complex>, phases: seq<Phase<Buf>>)
    requires cIn.Length >= n0 * n1 * n2 && |deviceResult| == n0 * n1 * n2
    modifies cIn
    ensures inverseArg == inverse
    ensures launchIn == old(cIn[..n0 * n1 * n2])
    ensures cIn[..n0 * n1 * n2] == deviceResult && cIn[n0 * n1 * n2..] == old(cIn[n0 * n1 * n2..])
    ensures phases == [Phase([Command(6, None, Some(DIn))], [6]), Phase(Run3dKernels(), [1, 2, 3, 4, 5]),
                       Phase([Command(3, Some(DOut), None)], [3])]
    ensures AllRaceFree(phases)
  {
    var count := n0 * n1 * n2;
    var hIn := new Complex[count];
    var hOut := new Complex[count];
    CopyElements(hIn, cIn, count);
    launchIn := hIn[..];
    var write := Phase([Command(6, None, Some(DIn))], [6]);
    var kernels := Phase(Run3dKernels(), [1, 2, 3, 4, 5]);
    OneReaderOneWriter(kernels, 0, 2);
    inverseArg := inverse;
    forall i | 0 <= i < count {
      hOut[i] := deviceResult[i];
    }
    var read := Phase([Command(3, Some(DOut), None)], [3]);
    CopyElements(cIn, hOut, count);
    phases := [write, kernels, read];
  }

  /**
   * fpga_fft3d_sp_ and fpga_fft3d_dp_ (same body): an in-place 3-D FFT of
   * din, forward when direction is 1 and inverse otherwise.
   */
  method Fft3d(direction: int, n0: nat, n1: nat, n2: nat, din: array<Complex>, deviceResult: seq<Complex>)
    returns (inverseArg: int)
    requires din.Length >= n0 * n1 * n2 && |deviceResult| == n0 * n1 * n2
    modifies din
    ensures inverseArg == 0 <==> direction == 1
    ensures din[..n0 * n1 * n2] == deviceResult && din[n0 * n1 * n2..] == old(din[n0 * n1 * n2..])
  {
    var launchIn, phases;
    inverseArg, launchIn, phases := Run3d(InverseFlag(direction), n0, n1, n2, din, deviceResult);
  }
}
