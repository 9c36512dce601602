/**
 * check_valid_svm_device in api/src/svm.c and in src/host/src/svm.c: the
 * decision both make on the CL_DEVICE_SVM_CAPABILITIES bitfield a device
 * reports. The four capability flags are the distinct bits that section
 * 4.2 of the OpenCL 2.0 API specification assigns them; the bitfield is a
 * 64-bit cl_bitfield.
 */
module Svm {
  type Caps = bv64

  const CoarseGrainBuffer: Caps := 1
  const FineGrainBuffer: Caps := 2
  const FineGrainSystem: Caps := 4
  const Atomics: Caps := 8

  /** The branch of the api/src/svm.c if/else chain that decides, in chain order. */
  datatype Verdict =
    | FoundCoarse
    | FoundFineBuffer
    | FoundFineBufferAtomics
    | FoundFineSystem
    | FoundFineSystemAtomics
    | NoSvm

  /** Value check_valid_svm_device returns from a branch. */
  function Accepts(b: Verdict): bool
  {
    b.FoundCoarse? || b.FoundFineBuffer? || b.FoundFineBufferAtomics?
  }

  /** C's `x && y` on two bitfields: both non-zero. */
  predicate LogicalAnd(x: Caps, y: Caps)
  {
    x != 0 && y != 0
  }

  /** api/src/svm.c as written: every test is a logical `&&` of caps with a flag. */
  function ApiBranchAsWritten(caps: Caps): (b: Verdict)
  {
    if LogicalAnd(caps, CoarseGrainBuffer) then FoundCoarse
    else if LogicalAnd(caps, FineGrainBuffer) then FoundFineBuffer
    else if LogicalAnd(caps, FineGrainBuffer) && LogicalAnd(caps, Atomics) then FoundFineBufferAtomics
    else if LogicalAnd(caps, FineGrainSystem) then FoundFineSystem
    else if LogicalAnd(caps, FineGrainSystem) && LogicalAnd(caps, Atomics) then FoundFineSystemAtomics
    else NoSvm
  }

  /**
   * As written, the first test holds for every non-zero bitfield: the
   * device is accepted exactly when it reports anything at all, and only
   * the first and the last branch can ever be taken.
   */
  lemma AsWrittenAcceptsAnyNonZero(caps: Caps)
    ensures Accepts(ApiBranchAsWritten(caps)) <==> caps != 0
    ensures ApiBranchAsWritten(caps) == (if caps != 0 then FoundCoarse else NoSvm)
  {
  }

  /**
   * A device that reports only fine-grained system SVM is accepted as
   * written, although the chain has a branch that rejects it.
   */
  lemma AsWrittenAcceptsFineSystemOnly()
    ensures ApiBranchAsWritten(FineGrainSystem) == FoundCoarse
    ensures Accepts(ApiBranchAsWritten(FineGrainSystem))
    ensures !Accepts(FoundFineSystem)
  {
  }

  /** api/src/svm.c with each test a bitwise `&` of caps with its flag. */
  function ApiBranch(caps: Caps): (b: Verdict)
    ensures b.FoundCoarse? <==> caps & CoarseGrainBuffer != 0
    ensures b.FoundFineBuffer? <==> caps & CoarseGrainBuffer == 0 && caps & FineGrainBuffer != 0
    ensures b.FoundFineSystem? <==> caps & (CoarseGrainBuffer | FineGrainBuffer) == 0 && caps & FineGrainSystem != 0
    ensures b.NoSvm? <==> caps & (CoarseGrainBuffer | FineGrainBuffer | FineGrainSystem) == 0
  {
    if caps & CoarseGrainBuffer != 0 then FoundCoarse
    else if caps & FineGrainBuffer != 0 then FoundFineBuffer
    else if caps & FineGrainBuffer != 0 && caps & Atomics != 0 then FoundFineBufferAtomics
    else if caps & FineGrainSystem != 0 then FoundFineSystem
    else if caps & FineGrainSystem != 0 && caps & Atomics != 0 then FoundFineSystemAtomics
    else NoSvm
  }

  /**
   * With bitwise tests, a device is accepted exactly when it offers a
   * buffer form of SVM (coarse- or fine-grained), a fine-grained
   * system-only device is rejected, and the two atomics branches stay
   * unreachable because the test before each of them already catches
   * every bitfield it would.
   */
  lemma ApiBranchAcceptsBufferSvm(caps: Caps)
    ensures Accepts(ApiBranch(caps)) <==> caps & (CoarseGrainBuffer | FineGrainBuffer) != 0
    ensures !ApiBranch(caps).FoundFineBufferAtomics? && !ApiBranch(caps).FoundFineSystemAtomics?
    ensures !Accepts(ApiBranch(FineGrainSystem)) && !Accepts(ApiBranch(FineGrainSystem | Atomics))
  {
  }

  /**
   * src/host/src/svm.c: 1 when the device supports SVM the host code can
   * use, 0 otherwise. The fine-grained buffer, fine-grained system and
   * atomics bits are tested first, in that order, and each rejects.
   */
  function HostSupportsSvm(caps: Caps): (r: int)
    ensures r == 0 || r == 1
    ensures r == 1 <==> caps & CoarseGrainBuffer != 0 && caps & (FineGrainBuffer | FineGrainSystem | Atomics) == 0
    ensures caps & FineGrainBuffer != 0 ==> r == 0
    ensures caps & FineGrainSystem != 0 ==> r == 0
    ensures caps & Atomics != 0 ==> r == 0
    ensures caps & (CoarseGrainBuffer | FineGrainBuffer | FineGrainSystem | Atomics) == 0 ==> r == 0
  {
    if caps & FineGrainBuffer != 0 then 0
    else if caps & FineGrainSystem != 0 then 0
    else if caps & Atomics != 0 then 0
    else if caps & CoarseGrainBuffer != 0 then 1
    else 0
  }

  /**
   * The host version accepts no device that the corrected api version
   * rejects: coarse-grained-only support passes both.
   */
  lemma HostStricterThanApi(caps: Caps)
    ensures HostSupportsSvm(caps) == 1 ==> Accepts(ApiBranch(caps))
    ensures HostSupportsSvm(CoarseGrainBuffer) == 1 && !Accepts(ApiBranch(0))
    ensures Accepts(ApiBranch(FineGrainBuffer)) && HostSupportsSvm(FineGrainBuffer) == 0
  {
  }
}
