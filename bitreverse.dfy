/**
 * The bit-reversal reordering tests/test_fft1d_fpga.cpp applies to the
 * 1-D FFT output before comparing it with FFTW: output sample i is taken
 * from position bit_rev(i) of a full copy, where bit_rev(i) is i with its
 * low logN bits in reverse order. The shift/or loop works on non-negative
 * ints below 2^logN, so `x << 1 | b` with b in {0, 1} is `2 * x + b` and
 * `x & 1`, `x >> 1` are `x % 2`, `x / 2`.
 */
module BitReverse {
  import opened Common

  function Pow2(n: nat): (r: nat)
    ensures r >= 1
  {
    if n == 0 then 1 else 2 * Pow2(n - 1)
  }

  function BitValue(b: bool): nat
  {
    if b then 1 else 0
  }

  /** The low n bits of x, least significant first. */
  function ToBits(x: nat, n: nat): (s: seq<bool>)
    ensures |s| == n
  {
    if n == 0 then [] else [x % 2 == 1] + ToBits(x / 2, n - 1)
  }

  /** The number whose bits, least significant first, are s. */
  function FromBits(s: seq<bool>): (r: nat)
    ensures r < Pow2(|s|)
  {
    if s == [] then 0 else BitValue(s[0]) + 2 * FromBits(s[1..])
  }

  /** The number whose bits, most significant first, are s. */
  function FromBitsMsbFirst(s: seq<bool>): (r: nat)
    ensures r < Pow2(|s|)
  {
    if s == [] then 0 else 2 * FromBitsMsbFirst(s[..|s| - 1]) + BitValue(s[|s| - 1])
  }

  function Reverse<T>(s: seq<T>): (r: seq<T>)
    ensures |r| == |s| && forall k :: 0 <= k < |s| ==> r[k] == s[|s| - 1 - k]
  {
    if s == [] then [] else Reverse(s[1..]) + [s[0]]
  }

  /** bit_rev(x) for logN = n: the low n bits of x read back to front. */
  function BitRev(x: nat, n: nat): (r: nat)
    ensures r < Pow2(n)
  {
    FromBitsMsbFirst(ToBits(x, n))
  }

  /** Reading bits most significant first is reading the reversed sequence least significant first. */
  lemma {:induction false} MsbFirstIsReversed(s: seq<bool>)
    ensures FromBitsMsbFirst(s) == FromBits(Reverse(s))
    decreases |s|
  {
    if s != [] {
      var init := s[..|s| - 1];
      MsbFirstIsReversed(init);
      var r := Reverse(s);
      assert r[0] == s[|s| - 1];
      assert r[1..] == Reverse(init);
    }
  }

  /** Decoding the low n bits of x and re-encoding them gives x back when x < 2^n. */
  lemma {:induction false} FromToBits(x: nat, n: nat)
    requires x < Pow2(n)
    ensures FromBits(ToBits(x, n)) == x
  {
    if n > 0 {
      FromToBits(x / 2, n - 1);
      assert ToBits(x, n)[1..] == ToBits(x / 2, n - 1);
    }
  }

  /** Encoding a bit sequence and taking as many bits back gives the sequence. */
  lemma {:induction false} ToFromBits(s: seq<bool>)
    ensures ToBits(FromBits(s), |s|) == s
  {
    if s != [] {
      var x := FromBits(s);
      assert x == BitValue(s[0]) + 2 * FromBits(s[1..]);
      assert x % 2 == BitValue(s[0]) && x / 2 == FromBits(s[1..]);
      ToFromBits(s[1..]);
    }
  }

  lemma ReverseReverse<T>(s: seq<T>)
    ensures Reverse(Reverse(s)) == s
  {
  }

  /** bit_rev stays below 2^logN and is its own inverse there, hence a permutation of [0, 2^logN). */
  lemma BitRevInvolution(x: nat, n: nat)
    requires x < Pow2(n)
    ensures BitRev(x, n) < Pow2(n)
    ensures BitRev(BitRev(x, n), n) == x
  {
    var s := ToBits(x, n);
    MsbFirstIsReversed(s);
    assert BitRev(x, n) == FromBits(Reverse(s));
    ToFromBits(Reverse(s));
    MsbFirstIsReversed(Reverse(s));
    ReverseReverse(s);
    FromToBits(x, n);
  }

  /** A bit_rev that reaches every index: y is bit_rev of bit_rev(y). */
  lemma BitRevOnto(y: nat, n: nat)
    requires y < Pow2(n)
    ensures exists x: nat :: x < Pow2(n) && BitRev(x, n) == y
  {
    BitRevInvolution(y, n);
  }

  /** The test's inner loop: logN rounds of shifting bit_rev left and or-ing in the low bit of fwd. */
  method ComputeBitRev(i: nat, logN: nat) returns (rev: nat)
    ensures rev == BitRev(i, logN)
  {
    ghost var bits := ToBits(i, logN);
    var fwd := i;
    rev := 0;
    var j := 0;
    while j < logN
      invariant 0 <= j <= logN
      invariant ToBits(fwd, logN - j) == bits[j..]
      invariant rev == FromBitsMsbFirst(bits[..j])
    {
      assert bits[j] == (fwd % 2 == 1) && bits[j + 1..] == ToBits(fwd / 2, logN - j - 1);
      assert bits[..j + 1][..j] == bits[..j];
      rev := 2 * rev + fwd % 2;
      fwd := fwd / 2;
      j := j + 1;
    }
    assert bits[..logN] == bits;
  }

  /**
   * The test's reordering of `out` (N = 2^logN samples): temp is a full
   * copy taken first, then out[i] = temp[bit_rev(i)] for every i. Every
   * old sample lands at the bit-reversed position of its old index.
   */
  method ReorderBitReversed(out: array<Complex>, logN: nat)
    requires out.Length == Pow2(logN)
    modifies out
    ensures forall i :: 0 <= i < out.Length ==> out[i] == old(out[BitRev(i, logN)])
    ensures forall j :: 0 <= j < out.Length ==> out[BitRev(j, logN)] == old(out[j])
  {
    var n := out.Length;
    var temp := new Complex[n];
    CopyElements(temp, out, n);
    var i := 0;
    while i < n
      invariant 0 <= i <= n
      invariant temp[..] == old(out[..])
      invariant forall k :: 0 <= k < i ==> out[k] == temp[BitRev(k, logN)]
    {
      var rev := ComputeBitRev(i, logN);
      out[i] := temp[rev];
      i := i + 1;
    }
    forall j | 0 <= j < n
      ensures out[BitRev(j, logN)] == old(out[j])
    {
      BitRevInvolution(j, logN);
    }
  }
}
