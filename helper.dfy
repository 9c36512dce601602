/**
 * src/host/common/helper.c: the 3-D offset function coord and the loaders
 * get_sp_input_data and get_dp_input_data, which fill the FPGA input and
 * the FFTW input with the same samples in an i/j/k triple loop. Whether a
 * sample comes from the data file or from rand() is outside the model: the
 * samples arrive as the sequence the loader consumes, in visiting order.
 */
module Helper {
  import opened Common

  /** coord(N, i, j, k) for N = (n0, n1, n2). */
  function Coord(n0: nat, n1: nat, n2: nat, i: nat, j: nat, k: nat): nat
  {
    i * n0 * n1 + j * n2 + k
  }

  /** Row-major offset of (i, j, k) in an n0 x n1 x n2 volume. */
  function RowMajor(n1: nat, n2: nat, i: nat, j: nat, k: nat): nat
  {
    (i * n1 + j) * n2 + k
  }

  /** coord is the row-major offset whenever N[0] == N[2], and so for uniform dims. */
  lemma CoordIsRowMajor(n0: nat, n1: nat, n2: nat, i: nat, j: nat, k: nat)
    requires n0 == n2
    ensures Coord(n0, n1, n2, i, j, k) == RowMajor(n1, n2, i, j, k)
  {
    var a: nat := i * n1;
    Distribute(a, j, n2);
    assert i * n0 * n1 == a * n2;
  }

  lemma MulMonotone(a: nat, b: nat, c: nat)
    requires a <= b
    ensures a * c <= b * c
  {
    Distribute(a, b - a, c);
  }

  /** Row-major offsets of an n0 x n1 x n2 volume stay below n0*n1*n2. */
  lemma {:induction false} RowMajorBound(n0: nat, n1: nat, n2: nat, i: nat, j: nat, k: nat)
    requires i < n0 && j < n1 && k < n2
    ensures RowMajor(n1, n2, i, j, k) < n0 * n1 * n2
  {
    var row: nat := i * n1 + j;
    MulMonotone(i + 1, n0, n1);
    Distribute(i, 1, n1);
    assert row + 1 <= n0 * n1;
    MulMonotone(row + 1, n0 * n1, n2);
    Distribute(row, 1, n2);
  }

  /** Moving from the last k of a row to the next j, and from the last j of a plane to the next i. */
  lemma RowMajorCarry(n1: nat, n2: nat, i: nat, j: nat)
    ensures RowMajor(n1, n2, i, j, n2) == RowMajor(n1, n2, i, j + 1, 0)
    ensures RowMajor(n1, n2, i, n1, 0) == RowMajor(n1, n2, i + 1, 0, 0)
  {
    Distribute(i * n1 + j, 1, n2);
    Distribute(i, 1, n1);
  }

  /** For uniform dims n and indices below n, coord stays below n*n*n. */
  lemma CoordBound(n: nat, i: nat, j: nat, k: nat)
    requires i < n && j < n && k < n
    ensures Coord(n, n, n, i, j, k) < n * n * n
  {
    CoordIsRowMajor(n, n, n, i, j, k);
    RowMajorBound(n, n, n, i, j, k);
  }

  /**
   * For N = (2, 3, 4) two cells share an offset, which is why coord is
   * documented for uniform dims only.
   */
  lemma CoordCollidesForNonUniformDims()
    ensures Coord(2, 3, 4, 1, 0, 0) == Coord(2, 3, 4, 0, 1, 2) == 6
  {
  }

  /**
   * get_sp_input_data / get_dp_input_data for uniform dims n: the triple
   * loop visits i, j, k in lexicographic order, writes the t-th sample it
   * consumes at offset coord(N, i, j, k), and gives fft_data and fftw_data
   * the same pair there. `visited` lists the offsets in the order the
   * loop writes them: 0 to n*n*n - 1, each once.
   */
  method LoadInputData(fftData: array<Complex>, fftwData: array<Complex>, n: nat, samples: seq<Complex>)
    returns (ghost visited: seq<nat>)
    requires fftData.Length == n * n * n && fftwData.Length == n * n * n && fftData != fftwData
    requires |samples| == n * n * n
    modifies fftData, fftwData
    ensures fftData[..] == samples && fftwData[..] == samples
    ensures |visited| == n * n * n && forall x :: 0 <= x < |visited| ==> visited[x] == x
  {
    var t: nat := 0;  // samples consumed so far
    visited := [];
    var i := 0;
    while i < n
      invariant 0 <= i <= n && t == RowMajor(n, n, i, 0, 0) && t <= |samples|
      invariant |visited| == t && forall x :: 0 <= x < t ==> visited[x] == x
      invariant fftData[..t] == samples[..t] && fftwData[..t] == samples[..t]
    {
      var j := 0;
      while j < n
        invariant 0 <= j <= n && t == RowMajor(n, n, i, j, 0) && t <= |samples|
        invariant |visited| == t && forall x :: 0 <= x < t ==> visited[x] == x
        invariant fftData[..t] == samples[..t] && fftwData[..t] == samples[..t]
      {
        var k := 0;
        while k < n
          invariant 0 <= k <= n && t == RowMajor(n, n, i, j, k) && t <= |samples|
          invariant |visited| == t && forall x :: 0 <= x < t ==> visited[x] == x
          invariant fftData[..t] == samples[..t] && fftwData[..t] == samples[..t]
        {
          CoordIsRowMajor(n, n, n, i, j, k);
          RowMajorBound(n, n, n, i, j, k);
          var where := Coord(n, n, n, i, j, k);
          fftData[where] := samples[t];
          fftwData[where] := fftData[where];
          visited := visited + [where];
          t := t + 1;
          k := k + 1;
        }
        RowMajorCarry(n, n, i, j);
        j := j + 1;
      }
      RowMajorCarry(n, n, i, j);
      i := i + 1;
    }
    assert fftData[..] == fftData[..t] && fftwData[..] == fftwData[..t];
  }
}
