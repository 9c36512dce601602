# FFT3d-FPGA host logic in Dafny

This project models the host side of the FFT3d-FPGA library: the C code that
checks the arguments of each FFT entry point, decides which device buffer each
kernel argument is bound to, moves batches between host and FPGA memory, and
manages the OpenCL platform, program and SVM (shared virtual memory) setup.
The FFT arithmetic runs inside OpenCL kernels that are not part of this
model. Kernels are therefore symbolic: a pipeline of kernels bound to a source
buffer and a destination buffer leaves `Run(pipeline, inverse, contents of the
source)` in the destination (`Common.Data`). A routing property then reads as
an equation, such as "the host reads back `Run(Ddr3dStage2, inv,
Run(Ddr3dStage1, inv, Input(0)))`". Complex samples (`float2`, `double2`)
are opaque pairs, because the host only copies and zeroes them.

The modules follow the source files:

- `Common`: shared types, the power-of-two guard `(N & (N-1)) == 0` on 32-bit
  unsigned values, the flags of the BRAM variants, and the element copy and
  zeroing loops.
- `Queues`: in-order command queues, reduced to phases that end with `clFinish`.
  A phase is race-free when no two commands on different queues share a buffer
  that one of them writes.
- `Fft3d`: api/src/fft3d.c, including the four-bank rotation of
  `fftfpgaf_c2c_3d_ddr_batch`.
- `Fft3dSvm`: api/src/fft3d_svm.c, including the two-buffer ping-pong of
  `fftfpgaf_c2c_3d_ddr_svm_batch`.
- `Fft2d`: api/src/fft2d.c.
- `Fft1d`: api/src/fft1d.c.
- `FpgaApi`: api/src/fftfpga.c, including the module-level statics as the
  class `Runtime`.
- `HostApi`: src/host/api/fft_fpga.c, including the bitstream-size cache as
  the class `BitstreamCache`.
- `Helper`: `coord` and the input loaders of src/host/common/helper.c.
- `Text`: `strlen`, `tolower`, `strstr` and `tolowercase`.
- `OpenclUtils` and `HostOpenclUtils`: the two opencl_utils.c files.
- `Svm`: both copies of `check_valid_svm_device`.
- `BitReverse`: the bit-reversal reordering in tests/test_fft1d_fpga.cpp.

Inputs that the host obtains from OpenCL, the file system or the device are
parameters of the model:

- whether each query succeeds;
- the platform names;
- the device's SVM capabilities;
- whether the binary file is readable, and its size;
- what the kernels leave in an output buffer.

The batched functions overlap transfers and kernels on separate queues. The
model replays each round one operation at a time. The four-bank rotation's
round list is pinned to a function of how_many, `Fft3d.RotatedSteps`, and a
lemma proves that the overlapped operations of every round in it touch
distinct banks. `Fft3dSvm.SvmSchedule` states for every overlapped round that
the buffer being filled differs from the one being drained. So the order of
the replay does not matter.

## Model

| member | source | states |
|---|---|---|
| `Common.Pow2GuardExact` | api/src/fft3d.c:37 | On 32-bit unsigned N, `(N & (N-1)) == 0` holds exactly when N is 0 or a power of two. So N = 0 passes every entry point's guard. |
| `Common.BramFlagsFitKernels` | api/src/fft2d.c:186-194 | With interleaving, both buffers are read-write and not pinned to a channel. Otherwise the input is read-only on channel 1 and the output is write-only on channel 2. Either way fetch can read the input and store can write the output. |
| `Common.CopyElements` | api/src/fft2d.c:372-375 | The copy loop makes the first `count` elements of the destination equal to the source's and leaves the rest unchanged. |
| `Common.ZeroElements` | api/src/fft2d.c:384-387 | The zeroing loop sets the first `count` elements to zero and leaves the rest unchanged. |
| `Fft3d.C2c3dBram` | api/src/fft3d.c:28-197 | `valid` is set iff both pointers are non-NULL and N passes the guard. On rejection `out` is untouched. On success `out` holds the 3-D pipeline applied to the input, and the buffer flags are exactly those of the interleaving setting: read-write with no channel when interleaving, otherwise read-only on channel 1 and write-only on channel 2. So fetch can read and store can write. |
| `Fft3d.Fetch2NeedsStore1Queue` | api/src/fft3d.c:294-332 | The kernel phase of the single 3-D DDR FFT is race-free iff fetch2 sits on store1's queue (queue5). On any other queue it could read d_transpose while store1 is still writing it. |
| `Fft3d.C2c3dDdr` | api/src/fft3d.c:209-384 | The guard decides `valid` exactly. store1 and fetch2 are both bound to d_transpose, fetch1 to d_inData, and the host reads back the buffer store2 writes. `out` is stage 2 applied to stage 1 applied to the input. The run is exactly three phases: the write of d_inData on queue1, the eight kernels with fetch2 on queue5, and the read-back on queue1. Each of these is race-free. |
| `Fft3d.LoopRound` | api/src/fft3d.c:557-629 | The `i % 4` case split of iteration i writes batch i+2 into bank (i+2) mod 4 and reads batch i from bank i mod 4. It binds fetch1, the transpose bank and store2 to the banks of batch i+1. |
| `Fft3d.TailRound` | api/src/fft3d.c:676-739 | The `how_many % 4` case split after the loop reads batch how_many-2 from its bank and runs batch how_many-1 on its banks. |
| `Fft3d.FinalReadBank` | api/src/fft3d.c:781-796 | The last read-back uses the bank of batch how_many-1, which is (how_many-1) mod 4. |
| `Fft3d.C2c3dDdrBatch` | api/src/fft3d.c:397-857 | `valid` is set iff the pointers are non-NULL, N passes the guard and how_many > 1. On success, input batch b goes to bank b mod 4 in order, the runs of batch b fetch from that bank, and output block b holds the result of batch b. The round list equals `RotatedSteps(how_many)`: the write of batch 0, the write of batch 1 while batch 0 runs, loop round i, then the two drain rounds. So every round is conflict-free (see `RotatedStepsConflictFree`). |
| `Fft3d.BatchDrain` | api/src/fft3d.c:676-796 | From the loop's final state, the tail round and the last read complete the run list and the read-back list. Every output block then holds its batch's result. The two added rounds are exactly `DrainSteps(how_many)`, and the round list stays conflict-free. |
| `Fft3d.ExactlyOnce` | api/src/fft3d.c:500-796 | In the rotated transfer list, each batch b < how_many appears exactly once, and always with bank b mod 4. This holds for input writes and output reads alike. |
| `Fft3d.LoopRoundConflictFree` | api/src/fft3d.c:557-629 | In loop round i, batch i+2 goes into a different input bank from the one batch i+1 is fetched from. Batch i is read from a different output bank from the one batch i+1 is stored to. store1 and fetch2 share a transpose bank. |
| `Fft3d.DrainConflictFree` | api/src/fft3d.c:676-796 | In the round after the loop, batch how_many-2 is read from a different output bank from the one the last batch is stored to. The final read overlaps no run. |
| `Fft3d.RotatedStepsConflictFree` | api/src/fft3d.c:500-796 | For every how_many ≥ 2, no round of the four-bank rotation writes a bank while it is read in the same round. |
| `Fft3d.RunMatchesTransfers` | api/src/fft3d.c:557-629 | The run of batch b fetches from the bank batch b was written to and stores into the bank batch b is read back from. |
| `Fft3dSvm.C2c3dDdrSvm` | api/src/fft3d_svm.c:31-230 | `valid` is set iff `inp` and `out` are non-NULL, N passes the guard and SVM is enabled. On success the SVM input is a copy of `inp`. transpose3D has the same buffer as both arguments and is enqueued first in WR mode, then in RD mode. The output is the full pipeline of the input. |
| `Fft3dSvm.CopyInBatches` | api/src/fft3d_svm.c:290-316 | Block b of `inp`, `inp[b*num_pts .. (b+1)*num_pts)`, is copied into `h_inData[b]`, and every `h_outData[b]` is zeroed. |
| `Fft3dSvm.ConcatOfBlocks` | api/src/fft3d_svm.c:470-485 | Laying the blocks back out one after another, in the copy-out layout, gives back the whole input. So copy-in and copy-out use the same block order. |
| `Fft3dSvm.SvmSchedule` | api/src/fft3d_svm.c:322-451 | Batch 0 goes to d_inOutData_1 in WR mode. In round i ≥ 1 transpose3D writes batch i into one buffer and reads, from the other buffer, the one written in round i-1. The store kernel targets `h_outData[i-1]`. The RD-mode drain reads the buffer holding the last batch for either parity of how_many, including 1. Each output slot receives exactly its batch's result. |
| `Fft3dSvm.C2c3dDdrSvmBatch` | api/src/fft3d_svm.c:244-518 | `valid` is set iff the pointers are non-NULL, N passes the guard, how_many ≠ 0 and SVM is enabled. On success the SVM input blocks concatenate to `inp` and output block b holds the result of batch b, so output order equals batch order. The round list satisfies the schedule properties above. |
| `Fft2d.GeometryDivides` | api/src/fft2d.c:84-86 | For a multiple of 8, the global size N*N/8 is a whole number of work-groups of size N, namely N/8 of them. |
| `Fft2d.PassIsRaceFree` | api/src/fft2d.c:77-114 | A pass whose fetch and transpose buffers differ is race-free once queues 1 to 3 are finished. |
| `Fft2d.PassesNeedFinish` | api/src/fft2d.c:107-112 | Without the `clFinish` calls between the passes, the second fetch could read d_tmp while the first transpose writes it. |
| `Fft2d.C2c2dDdr` | api/src/fft2d.c:27-157 | The guard decides `valid` exactly. Pass 0 reads d_inData and transposes into d_tmp, and pass 1 reads d_tmp and transposes into d_outData, which is read back. Both passes use local size N and global size N*N/8 and respect the buffer flags. `out` is two passes over the input. The phases are exactly the write of d_inData, the two passes each finished on queues 1 to 3, and the read of d_outData. Each is race-free. |
| `Fft2d.C2c2dBram` | api/src/fft2d.c:170-336 | The guard decides `valid` exactly. Buffers and transfers cover how_many*N*N elements, the flags follow `interleaving`, and `out` is the 2-D pipeline of the input. |
| `Fft2d.C2c2dBramSvm` | api/src/fft2d.c:348-503 | `valid` is set iff both pointers are non-NULL, N passes the guard and SVM is enabled; on rejection `out` is unchanged. Before launch the SVM input equals `inp[..num_pts]` and the SVM output is all zero. Afterwards `out[i] = h_outData[i]` for every i < num_pts, and the rest of `out` is unchanged. |
| `Fft1d.GeometryIsWholeGroups` | api/src/fft1d.c:84-85 | The local size N/8 is zero iff N < 8. Otherwise the global size batch*(N/8) is exactly `batch` work-groups. |
| `Fft1d.BufferFlagsFitKernels` | api/src/fft1d.c:44-47 | In either precision, fetch can read d_inData and fft1d can write d_outData, and the two are on different channels. |
| `Fft1d.DpReadBackTruncated` | api/src/fft1d.c:53-108 | As written, the double-precision path reads back sizeof(float2)*N*batch bytes, half of the sizeof(double2)*N*batch it wrote. For N = 64 and one batch that is 512 of 1024 bytes. |
| `Fft1d.C2c1d` | api/src/fft1d.c:27-243 | The guard decides `valid` exactly, and on rejection `out` is untouched. On success `out` is the 1-D pipeline of the input. The launch geometry is (N/8, batch*N/8). The buffer, write and read sizes agree, with the read-back corrected to sizeof(double2) in double precision. |
| `Fft1d.C2c1dSvm` | api/src/fft1d.c:256-367 | `valid` is set iff the pointers are non-NULL, N passes the guard and SVM is enabled. All N*batch inputs are copied in and the output is zeroed before launch. Afterwards `out[i] = h_outData[i]` for every i < N*batch, and nothing beyond changes. |
| `FpgaApi.ComplexMalloc` | api/src/fftfpga.c:38-70 | NULL when svm == 1 whatever the size, and NULL when sz == 0. Otherwise the block has size sz, or NULL if the aligned allocation fails. |
| `FpgaApi.QueueReleases` | api/src/fftfpga.c:931-944 | `queue_cleanup` releases only queues that are set, at most one release per queue, and nothing when no queue is set. |
| `FpgaApi.Runtime.constructor` | api/src/fftfpga.c:18-23 | Every static starts as NULL. |
| `FpgaApi.Runtime.Final` | api/src/fftfpga.c:138-148 | `fpga_final` releases the program, then the context (each only if set), then frees the device list. No static changes. |
| `FpgaApi.Runtime.Initialize` | api/src/fftfpga.c:80-132 | Returns 1, changing nothing, for a NULL or empty path. Returns 1 if no platform or no devices are found. Calls `fpga_final` and returns 1 if the program cannot be created. Returns 0 otherwise, with the first device, the new context and the program stored. |
| `FpgaApi.Runtime.QueueSetup` | api/src/fftfpga.c:911-926 | queue1..queue6 become the six created queues, and nothing else changes. |
| `FpgaApi.Runtime.QueueCleanup` | api/src/fftfpga.c:931-944 | Appends the release of every queue that is set, in queue order. |
| `FpgaApi.C2c1d` | api/src/fftfpga.c:159-369 | The guard decides `valid` exactly. The output is the 1-D pipeline, both buffers are read-write with the output on channel 2, and the geometry and read-back size match api/src/fft1d.c. |
| `FpgaApi.C2c2dDdr` | api/src/fftfpga.c:381-494 | The guard decides `valid` exactly. The 2-D routing is d_inData → d_tmp, then d_tmp → d_outData, and d_outData is read back. The four phases are exactly those of `Fft2d.C2c2dDdr`, and each is race-free. |
| `FpgaApi.StreamingKernelsRaceFree` | api/src/fftfpga.c:560-594 | The single kernel phases of the 2-D and 3-D BRAM functions are race-free. |
| `FpgaApi.CBram` | api/src/fftfpga.c:505-746 | The guard decides `valid` exactly. The flags are exactly read-write, on channels 1 and 2 in 3-D and on no channel in 2-D. The phases are exactly three: the write of d_inData, the five streaming kernels, and the read of d_outData. The kernels fetch from d_inData and their one writer fills d_outData, and every phase is race-free. `out` is the 2-D or 3-D pipeline of the input, and N*N or N*N*N points are moved. |
| `FpgaApi.StagesNeedBarrier` | api/src/fftfpga.c:809-866 | Each 3-D DDR stage is race-free on its own. Run as one phase, fetch2 could read d_outData while store1 writes it, so stage 2 must wait for all five stage-1 queues. |
| `FpgaApi.C2c3dDdr` | api/src/fftfpga.c:749-903 | The guard decides `valid` exactly. Stage 1 stores into d_outData. After all five stage-1 queues finish, stage 2 fetches d_outData and stores into d_inData, and the host reads d_inData. |
| `HostApi.CheckStep` | src/host/api/fft_fpga.c:58-94 | Returns 1 iff N is 16³, 32³ or 64³. An unsupported N leaves the cache and program untouched. A supported N ends up in the cache. Repeating the cached size causes no event. A new size ends with `init_program` for it. |
| `HostApi.CheckStepKeepsInvariant` | src/host/api/fft_fpga.c:59-89 | The cache stays (0,0,0) or a supported cube. The first supported call runs `init_program` once. A different supported size runs `cleanup_program` and then `init_program`. |
| `HostApi.CheckStepIdempotent` | src/host/api/fft_fpga.c:74-77 | Calling twice with the same N: the second call returns the same result, keeps the cache and causes no event. |
| `HostApi.BitstreamCache.constructor` | src/host/api/fft_fpga.c:59 | The static cache starts as {0, 0, 0}. |
| `HostApi.BitstreamCache.Check` | src/host/api/fft_fpga.c:58-94 | The in-place if/else chain returns, caches and triggers exactly what `CheckStep` describes, and keeps the cache invariant. |
| `HostApi.InverseFlag` | src/host/api/fft_fpga.c:103-128 | `inverse` is 0 (forward) iff direction == 1, and 1 for any other value. |
| `HostApi.Run3d` | src/host/api/fft_fpga.c:137-237 | The kernels receive c_in's first N0*N1*N2 samples. The result overwrites exactly those samples of c_in, in place. The phases are exactly three: the write of d_inData on queue6, the five kernels finished on queues 1 to 5, and the read of d_outData on queue3. Each is race-free. |
| `HostApi.Fft3d` | src/host/api/fft_fpga.c:103-128 | `fpga_fft3d_sp_` and `_dp_` run forward iff direction == 1 and overwrite din in place with the result. |
| `Helper.CoordIsRowMajor` | src/host/common/helper.c:151-154 | `coord` equals the row-major offset `(i*N1 + j)*N2 + k` whenever N0 == N2, which covers uniform dims. |
| `Helper.RowMajorBound` | src/host/common/helper.c:152 | Row-major offsets of indices inside the volume stay below N0*N1*N2. |
| `Helper.CoordBound` | src/host/common/helper.c:151-154 | For uniform dims n and i, j, k < n, `coord` < n³. |
| `Helper.CoordCollidesForNonUniformDims` | src/host/common/helper.c:152-153 | For N = (2, 3, 4) two different cells get offset 6, which is why the TODO restricts `coord` to uniform dims. |
| `Helper.LoadInputData` | src/host/common/helper.c:41-74 | For uniform dims the triple loop visits offsets 0 … n³-1 in increasing order, each once, and gives fft_data and fftw_data the same sample at each offset. |
| `Text.LowerProperties` | api/src/opencl_utils.c:451-458 | Lowering keeps the length, leaves no capital letter, changes nothing else, is idempotent, and introduces no NUL. |
| `Text.ContainsIffOccurs` | api/src/opencl_utils.c:82 | The strstr test succeeds iff the needle occurs at some position, and the empty needle occurs in every string. |
| `Text.ToLowerCase` | api/src/opencl_utils.c:451-458 | `q[i] = tolower(p[i])` for every i < strlen(p), `q[strlen(p)]` is NUL and nothing beyond it changes, so strlen(q) == strlen(p). The loop at src/host/src/opencl_utils.c:311-319 is identical. |
| `OpenclUtils.ScanFrom` | api/src/opencl_utils.c:58-88 | The platform scan ends at the first platform, in query order, whose queries fail or whose lowercased name contains the lowercased search string, or reports no match after passing over all of them. |
| `OpenclUtils.ScanIsFirst` | api/src/opencl_utils.c:58-88 | If platform k is the first one that fails or matches, the scan returns exactly k with that outcome. |
| `OpenclUtils.FindPlatform` | api/src/opencl_utils.c:24-88 | NULL for a NULL or empty name before any query, and NULL when a platform-count or id query fails. Otherwise returns the first match of the scan, or NULL on a failed name query or no match. |
| `OpenclUtils.GetDevices` | api/src/opencl_utils.c:93-122 | NULL iff the platform is NULL, the device type is 0, or a device query fails. Otherwise the ids found. |
| `OpenclUtils.GetProgramWithBinary` | api/src/opencl_utils.c:144-175 | NULL iff there are no devices, the file is unreadable, the binary is empty, or program creation fails. |
| `OpenclUtils.ErrorName` | api/src/opencl_utils.c:219-424 | Codes -1..-19, -30..-70, -1001 and -1094..-1097 get their fixed names. Every other code gets "UNRECOGNIZED ERROR CODE" with the code. |
| `HostOpenclUtils.EmptyNameMatchesFirstPlatform` | src/host/src/opencl_utils.c:49-76 | With no guard on the search string, an empty name matches the first platform whose queries succeed. |
| `HostOpenclUtils.FindPlatform` | src/host/src/opencl_utils.c:28-84 | A failing count or id query, or a failing name query, exits with EXIT_FAILURE. Otherwise returns the first case-insensitive substring match, or NULL if none. |
| `HostOpenclUtils.GetDevices` | src/host/src/opencl_utils.c:93-112 | Exits with EXIT_FAILURE iff a device query fails. Otherwise returns the ids found. |
| `HostOpenclUtils.GetProgramWithBinary` | src/host/src/opencl_utils.c:130-158 | Exits with EXIT_FAILURE iff the file is missing, the binary is empty, or program creation fails. Otherwise returns the program. |
| `HostOpenclUtils.FailuresBecomeExits` | src/host/src/opencl_utils.c:93-158 | Where api/src/opencl_utils.c returns NULL from getDevices or getProgramWithBinary, this copy exits, and otherwise both return the same value. |
| `HostOpenclUtils.ErrorMessage` | src/host/src/opencl_utils.c:206-284 | The 23 listed codes get their fixed messages. Every other code gets "UNKNOWN ERROR" with the code. |
| `HostOpenclUtils.HostNamesFewerCodes` | src/host/src/opencl_utils.c:206-284 | Every code this table names, the api table names too, and -1 is named only by the api table. |
| `Svm.AsWrittenAcceptsAnyNonZero` | api/src/svm.c:27-50 | With the logical `&&` tests, `check_valid_svm_device` accepts exactly the non-zero `caps`, and only the first and the last branch can be taken. |
| `Svm.AsWrittenAcceptsFineSystemOnly` | api/src/svm.c:27-42 | A device reporting only FINE_GRAIN_SYSTEM is accepted as written, although the chain has a branch that rejects it. |
| `Svm.ApiBranch` | api/src/svm.c:27-50 | With bitwise tests, each branch is taken exactly under its own bit condition, in chain order. |
| `Svm.ApiBranchAcceptsBufferSvm` | api/src/svm.c:27-50 | With bitwise tests, a device is accepted iff it has coarse- or fine-grain buffer SVM, and the two atomics branches are unreachable. |
| `Svm.HostSupportsSvm` | src/host/src/svm.c:30-49 | Returns 1 iff COARSE_GRAIN_BUFFER is set and none of the other three bits is. FINE_GRAIN_BUFFER, FINE_GRAIN_SYSTEM or ATOMICS each yields 0, and so does a value with none of the four bits. |
| `Svm.HostStricterThanApi` | src/host/src/svm.c:30-48 | Every device this copy accepts, the bitwise api chain accepts too. A fine-grain-buffer device separates the two. |
| `BitReverse.MsbFirstIsReversed` | tests/test_fft1d_fpga.cpp:68-75 | Accumulating bits most significant first, as the shift/or loop does, reads the reversed bit sequence. |
| `BitReverse.BitRevInvolution` | tests/test_fft1d_fpga.cpp:68-75 | `bit_rev(i) < 2^logN` for i < 2^logN, and `bit_rev` is its own inverse there, hence a permutation. |
| `BitReverse.BitRevOnto` | tests/test_fft1d_fpga.cpp:68-75 | Every index below 2^logN is `bit_rev` of some index. |
| `BitReverse.ComputeBitRev` | tests/test_fft1d_fpga.cpp:68-75 | The shift/or loop computes the low logN bits of i in reverse order. |
| `BitReverse.ReorderBitReversed` | tests/test_fft1d_fpga.cpp:65-77 | Because `temp` is a full copy taken first, afterwards `out[i] = old_out[bit_rev(i)]` and `out[bit_rev(j)] = old_out[j]` for every i and j. So the new `out` is a permutation of the old. |

## Left out

- OpenCL device plumbing is not modelled: buffer creation, kernel creation, `clSetKernelArg` calls other than buffer bindings, SVM map/unmap, `clSVMAlloc` and `clSVMFree`. Only which buffer each kernel argument is bound to is modelled.
- The FFT kernels and their numerics are foreign code. Their result is a symbolic term (`Run`), or a parameter where elements are copied.
- Overlapped queues, events and non-blocking transfers are replayed sequentially. `Queues` captures only the ordering that `clFinish` and same-queue placement give.
- Every `checkError` after a failing OpenCL call is left out: it prints, releases the queues and program, and exits. This includes context creation and `clBuildProgram` in `fpga_initialize`.
- Timing, profiling and the float fields of `fpga_t` are clock reads and floating-point arithmetic, and are left out. Only `valid` is modelled.
- FFTW verification, the SNR checks, random data generation, the command-line drivers, console output, `loadBinary` and `alignedMalloc` are left out. The allocation succeeding is the `alignedOk` parameter.
- The repository's power-measurement script (pandas float aggregation) is not part of this model.
- src/host/src/fftfpga.c is not part of this model. It does not compile, and its direction mapping duplicates src/host/api/fft_fpga.c:103-128.
- Header files, src/host/include/aocl_mmd.h and api/src/misc.c hold only declarations or a clock read, and are left out.
- Integer widths: `N` is 32 bits in the guards, which is also the two's-complement pattern of the entry points that take a signed `int N`. Element counts such as `unsigned num_pts = N*N*N`, `coord`, `batch` and `how_many` are unbounded naturals, so 32-bit wrap-around of these products and negative `batch` or `iter` values are not modelled.
- `Helper.LoadInputData`: only uniform dims are modelled. The samples are the sequence the loader consumes, whether read with fscanf or drawn from rand().
- `FpgaApi.Runtime.Initialize`: the platform-name search and the use_svm and use_emulator arguments are outside this function. It receives the results of findPlatform, getDevices, clCreateContext and getProgramWithBinary.
- `HostApi.BitstreamCache.Check`: `init_program` and `cleanup_program` are recorded as events. What they do to the OpenCL state is not modelled.
- `Fft1d.C2c1d` and `FpgaApi.C2c1d` state the corrected double-precision read-back size. The as-written size is recorded under Findings.
- The two atomics branches of both svm.c chains print different messages but return the same value as the branch before them. Only the returned value is modelled.

## Findings

| source | as written | input that shows it | evidently intended | confidence | as-written member | corrected member |
|---|---|---|---|---|---|---|
| api/src/svm.c:27 | `caps && CL_DEVICE_SVM_COARSE_GRAIN_BUFFER` is a logical and of two non-zero values, so any non-zero `caps` is accepted as coarse-grained | `caps = CL_DEVICE_SVM_FINE_GRAIN_SYSTEM` (4) is accepted, although line 39 has a branch that rejects it | bitwise `caps & FLAG` in every test, accepting only buffer SVM | high, not executed | `Svm.AsWrittenAcceptsFineSystemOnly` | `Svm.ApiBranchAcceptsBufferSvm` |
| api/src/fft1d.c:108 | the double-precision `fftfpga_c2c_1d` reads back `sizeof(float2) * N * batch` bytes; api/src/fftfpga.c:242 does the same | N = 64, batch = 1: 1024 bytes written to d_inData, only 512 read back into `out` | `sizeof(double2) * N * batch`, the size written at line 53 | medium, not executed | `Fft1d.DpReadBackTruncated` | `Fft1d.C2c1d` |
