/**
 * The C string operations the two opencl_utils.c files rely on: strlen on
 * a NUL-terminated buffer, tolower in the "C" locale, strstr, and the
 * tolowercase helper both files define (api/src/opencl_utils.c and
 * src/host/src/opencl_utils.c have the same loop).
 */
module Text {
  const Nul: char := '\0'

  /** strlen: the index of the first NUL. */
  function StrLen(s: seq<char>): (r: nat)
    requires Nul in s
    ensures r < |s| && s[r] == Nul
    ensures forall k :: 0 <= k < r ==> s[k] != Nul
  {
    if s[0] == Nul then 0 else 1 + StrLen(s[1..])
  }

  predicate IsUpper(c: char)
  {
    'A' <= c <= 'Z'
  }

  /** tolower in the "C" locale: only 'A'..'Z' change. */
  function LowerChar(c: char): (r: char)
    ensures !IsUpper(r)
    ensures !IsUpper(c) ==> r == c
    ensures IsUpper(c) ==> r as int == c as int + 32
  {
    if IsUpper(c) then (c as int + 32) as char else c
  }

  /** The lower-case copy of s, character by character. */
  function Lower(s: seq<char>): (r: seq<char>)
    ensures |r| == |s|
  {
    seq(|s|, k requires 0 <= k < |s| => LowerChar(s[k]))
  }

  /**
   * Lowering keeps the length, leaves no capital letter, changes nothing
   * else, and lowering twice is lowering once.
   */
  lemma LowerProperties(s: seq<char>)
    ensures forall k :: 0 <= k < |s| ==> !IsUpper(Lower(s)[k])
    ensures forall k :: 0 <= k < |s| && !IsUpper(s[k]) ==> Lower(s)[k] == s[k]
    ensures Lower(Lower(s)) == Lower(s)
    ensures Nul !in s ==> Nul !in Lower(s)
  {
  }

  /** `needle` occurs in `hay` starting at position i. */
  predicate OccursAt(hay: seq<char>, needle: seq<char>, i: nat)
  {
    i + |needle| <= |hay| && hay[i..i + |needle|] == needle
  }

  /** strstr(hay, needle) != NULL. */
  predicate Contains(hay: seq<char>, needle: seq<char>)
    decreases |hay|
  {
    needle <= hay || (hay != [] && Contains(hay[1..], needle))
  }

  /** strstr finds needle exactly when it occurs somewhere in hay; an empty needle occurs everywhere. */
  lemma {:induction false} ContainsIffOccurs(hay: seq<char>, needle: seq<char>)
    ensures Contains(hay, needle) <==> exists i: nat :: OccursAt(hay, needle, i)
    ensures Contains(hay, [])
    decreases |hay|
  {
    assert [] <= hay;
    if needle <= hay {
      assert OccursAt(hay, needle, 0);
    } else {
      if hay != [] {
        ContainsIffOccurs(hay[1..], needle);
        if Contains(hay[1..], needle) {
          var i: nat :| OccursAt(hay[1..], needle, i);
          assert hay[1..][i..i + |needle|] == hay[i + 1..i + 1 + |needle|];
          assert OccursAt(hay, needle, i + 1);
        }
      }
      if exists i: nat :: OccursAt(hay, needle, i) {
        var i: nat :| OccursAt(hay, needle, i);
        assert i > 0;
        assert hay[1..][i - 1..i - 1 + |needle|] == hay[i..i + |needle|];
        assert OccursAt(hay[1..], needle, i - 1);
      }
    }
  }

  /**
   * tolowercase(p, q): q[i] = tolower(p[i]) for every i < strlen(p), then
   * q[strlen(p)] = NUL; nothing beyond it changes.
   */
  method ToLowerCase(p: array<char>, q: array<char>)
    requires Nul in p[..] && StrLen(p[..]) < q.Length && p != q
    modifies q
    ensures q[..StrLen(p[..])] == Lower(p[..StrLen(p[..])])
    ensures q[StrLen(p[..])] == Nul
    ensures q[StrLen(p[..]) + 1..] == old(q[StrLen(p[..]) + 1..])
    ensures Nul !in q[..StrLen(p[..])] && StrLen(q[..]) == StrLen(p[..])
  {
    var n := StrLen(p[..]);
    var i := 0;
    while i < StrLen(p[..])
      invariant 0 <= i <= n
      invariant q[..i] == Lower(p[..i])
      invariant q[n + 1..] == old(q[n + 1..])
    {
      var a := LowerChar(p[i]);
      q[i] := a;
      i := i + 1;
    }
    q[n] := Nul;
    LowerProperties(p[..n]);
    assert Nul !in p[..n];
    assert q[..n] == Lower(p[..n]);
    assert q[..][..n] == q[..n];
    StrLenOfPrefix(q[..], n);
  }

  /** A buffer whose first n characters are not NUL and whose n-th is has strlen n. */
  lemma {:induction false} StrLenOfPrefix(s: seq<char>, n: nat)
    requires n < |s| && s[n] == Nul && Nul !in s[..n]
    ensures StrLen(s) == n
  {
    if n > 0 {
      assert s[0] in s[..n];
      assert s[1..][..n - 1] == s[1..n];
      assert forall c :: c in s[1..n] ==> c in s[..n];
      StrLenOfPrefix(s[1..], n - 1);
    }
  }
}
