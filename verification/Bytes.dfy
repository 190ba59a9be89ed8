// Byte strings and the number encodings the bridge uses.
module Bytes {

  type byte = n: int | 0 <= n < 256

  type bytes = seq<byte>

  datatype Option<+T> = None | Some(value: T)

  const U32: nat := 0x1_0000_0000
  const U64: nat := 0x1_0000_0000_0000_0000

  function Zeros(n: nat): (z: bytes)
    ensures |z| == n && forall i :: 0 <= i < n ==> z[i] == 0
  {
    seq(n, _ => 0)
  }

  function Pow256(w: nat): (p: nat)
    ensures p > 0
  {
    if w == 0 then 1 else 256 * Pow256(w - 1)
  }

  /** Little-endian value of a byte string of any length. */
  function Val(b: bytes): nat {
    if b == [] then 0 else b[0] + 256 * Val(b[1..])
  }

  /** Big-endian value of a byte string of any length. */
  function ValBE(b: bytes): nat {
    if b == [] then 0 else 256 * ValBE(b[..|b| - 1]) + b[|b| - 1]
  }

  /** The low `w` bytes of `n`, little-endian. */
  function LE(n: nat, w: nat): (b: bytes)
    ensures |b| == w
  {
    if w == 0 then [] else [n % 256] + LE(n / 256, w - 1)
  }

  /** The shortest unsigned little-endian encoding; zero is the empty string. */
  function Minimal(n: nat): bytes {
    if n == 0 then [] else [n % 256] + Minimal(n / 256)
  }

  function Reverse(b: bytes): (r: bytes)
    ensures |r| == |b|
  {
    if b == [] then [] else Reverse(b[1..]) + [b[0]]
  }

  lemma {:induction false} MinimalVal(n: nat)
    ensures Val(Minimal(n)) == n
  {
    if n != 0 {
      MinimalVal(n / 256);
      assert Minimal(n)[1..] == Minimal(n / 256);
    }
  }

  lemma {:induction false} LEVal(n: nat, w: nat)
    requires n < Pow256(w)
    ensures Val(LE(n, w)) == n
  {
    if w != 0 {
      LEVal(n / 256, w - 1);
      assert LE(n, w)[1..] == LE(n / 256, w - 1);
    }
  }

  lemma {:induction false} ValBound(b: bytes)
    ensures Val(b) < Pow256(|b|)
  {
    if b != [] {
      ValBound(b[1..]);
    }
  }

  lemma {:induction false} ValLE(b: bytes)
    ensures LE(Val(b), |b|) == b
  {
    if b != [] {
      ValLE(b[1..]);
      assert Val(b) % 256 == b[0] && Val(b) / 256 == Val(b[1..]);
      assert LE(Val(b), |b|) == [b[0]] + LE(Val(b[1..]), |b| - 1);
    }
  }

  lemma LEInjective(a: nat, b: nat, w: nat)
    requires a < Pow256(w) && b < Pow256(w) && LE(a, w) == LE(b, w)
    ensures a == b
  {
    LEVal(a, w);
    LEVal(b, w);
  }

  lemma Pow256Values()
    ensures Pow256(1) == 256 && Pow256(4) == U32 && Pow256(8) == U64
  {
    assert Pow256(2) == 0x1_0000;
    assert Pow256(3) == 0x100_0000;
    assert Pow256(4) == 0x1_0000_0000;
    assert Pow256(5) == 0x100_0000_0000;
    assert Pow256(6) == 0x1_0000_0000_0000;
    assert Pow256(7) == 0x100_0000_0000_0000;
  }

  lemma {:induction false} LEZero(w: nat)
    ensures LE(0, w) == Zeros(w)
  {
    if w != 0 {
      LEZero(w - 1);
    }
  }

  /** Padding with zero bytes and cutting to width `w` is the `w`-byte encoding of the value, whatever
      the encoding of the value was. */
  lemma {:induction false} PadAndCut(b: bytes, w: nat)
    ensures (b + Zeros(w))[..w] == LE(Val(b), w)
  {
    if b == [] {
      LEZero(w);
      assert (b + Zeros(w))[..w] == Zeros(w);
    } else if w != 0 {
      var rest := b[1..];
      PadAndCut(rest, w - 1);
      assert (rest + Zeros(w))[..w - 1] == (rest + Zeros(w - 1))[..w - 1];
      assert (b + Zeros(w))[..w] == [b[0]] + (rest + Zeros(w))[..w - 1];
      assert Val(b) % 256 == b[0] && Val(b) / 256 == Val(rest);
    }
  }

  lemma {:induction false} ValZeroes(b: bytes, n: nat)
    ensures Val(b + Zeros(n)) == Val(b)
  {
    if b == [] {
      assert b + Zeros(n) == Zeros(n);
      LEZero(n);
      if n != 0 {
        ValZeroes([], n - 1);
        assert [] + Zeros(n - 1) == Zeros(n)[1..];
      }
    } else {
      ValZeroes(b[1..], n);
      assert (b + Zeros(n))[1..] == b[1..] + Zeros(n);
    }
  }

  /** Equal-length encodings with equal values are equal. */
  lemma ValInjective(a: bytes, b: bytes)
    requires |a| == |b| && Val(a) == Val(b)
    ensures a == b
  {
    ValLE(a);
    ValLE(b);
  }

  lemma {:induction false} ReverseVal(b: bytes)
    ensures Val(Reverse(b)) == ValBE(b)
  {
    if b != [] {
      var n := |b| - 1;
      ReverseVal(b[..n]);
      ReverseAppend(b[..n], [b[n]]);
      assert b == b[..n] + [b[n]];
      assert Reverse([b[n]]) == [b[n]];
      assert Reverse(b) == [b[n]] + Reverse(b[..n]);
      assert Reverse(b)[1..] == Reverse(b[..n]);
    }
  }

  lemma {:induction false} ReverseAppend(a: bytes, b: bytes)
    ensures Reverse(a + b) == Reverse(b) + Reverse(a)
  {
    if a == [] {
      assert a + b == b;
    } else {
      ReverseAppend(a[1..], b);
      assert (a + b)[1..] == a[1..] + b;
    }
  }

  /** Two concatenations whose first parts have equal length agree part by part. */
  lemma Peel(a: bytes, b: bytes, c: bytes, d: bytes)
    requires |a| == |c| && a + b == c + d
    ensures a == c && b == d
  {
    assert a == (a + b)[..|a|];
    assert b == (a + b)[|a|..];
  }
}
