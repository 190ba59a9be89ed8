// The proof envelope and its scalars: decoding, canonical order, the mask as a modulus, and the scalar encoding the
// host puts on the base stack.
module Envelope {
  import opened Bytes
  import opened Script
  import opened Accounts
  import opened BridgeDigest

  const FR_MODULUS_BE: bytes := [
    0x30, 0x64, 0x4e, 0x72, 0xe1, 0x31, 0xa0, 0x29, 0xb8, 0x50, 0x45, 0xb6, 0x81, 0x81, 0x58, 0x5d,
    0x28, 0x33, 0xe8, 0x48, 0x79, 0xb9, 0x70, 0x91, 0x43, 0xe1, 0xf5, 0x93, 0xf0, 0x00, 0x00, 0x01]

  const ENCODED_PROOF_LEN: nat := 4 + 96 + 256

  datatype EnvelopeError = WrongLength | WrongKeyPrefix | GuestFailed | WrongRoot | Noncanonical

  datatype Wrapper = Wrapper(inputs: seq<bytes>, raw: bytes)

  datatype Decoded = Accepted(wrapper: Wrapper) | Refused(error: EnvelopeError)

  /** The five public inputs, each 32 bytes, most significant first. */
  function Inputs(sha: Hash, proof: bytes, values: bytes, program: bytes, vkRoot: bytes): seq<bytes>
    requires |proof| == ENCODED_PROOF_LEN
  {
    [program, MaskedDigest(sha, values), Zeros(32), vkRoot, proof[68..100]]
  }

  /** What decoding yields, with the canonicity checks as numbers: the first malformation in the order of the checks. */
  function Decoding(sha: Hash, proof: bytes, values: bytes, program: bytes, vk: bytes, vkRoot: bytes): Decoded {
    if |proof| != 356 then Refused(WrongLength)
    else if proof[..4] != Sha(sha, vk)[..4] then Refused(WrongKeyPrefix)
    else if proof[4..36] != Zeros(32) then Refused(GuestFailed)
    else if proof[36..68] != vkRoot then Refused(WrongRoot)
    else if !(ValBE(program) < ValBE(FR_MODULUS_BE) && ValBE(vkRoot) < ValBE(FR_MODULUS_BE) &&
              ValBE(proof[68..100]) < ValBE(FR_MODULUS_BE)) then Refused(Noncanonical)
    else Accepted(Wrapper(Inputs(sha, proof, values, program, vkRoot), proof[100..]))
  }

  /** `decode`: an early return for each malformation, then a canonicity check on every scalar by array order. */
  method Decode(sha: Hash, proof: bytes, values: bytes, program: bytes, vk: bytes, vkRoot: bytes) returns (r: Decoded)
    requires |program| == 32 && |vkRoot| == 32
    ensures r.Accepted? <==>
            && |proof| == 356 && proof[..4] == Sha(sha, vk)[..4] && proof[4..36] == Zeros(32) && proof[36..68] == vkRoot
            && ValBE(program) < ValBE(FR_MODULUS_BE) && ValBE(vkRoot) < ValBE(FR_MODULUS_BE)
            && ValBE(proof[68..100]) < ValBE(FR_MODULUS_BE)
    ensures r == Decoding(sha, proof, values, program, vk, vkRoot)
    ensures r == Refused(WrongLength) <==> |proof| != 356
    ensures r == Refused(WrongKeyPrefix) <==> |proof| == 356 && proof[..4] != Sha(sha, vk)[..4]
    ensures r == Refused(GuestFailed) <==>
              |proof| == 356 && proof[..4] == Sha(sha, vk)[..4] && exists i :: 4 <= i < 36 && proof[i] != 0
    ensures r == Refused(WrongRoot) <==>
              |proof| == 356 && proof[..4] == Sha(sha, vk)[..4] && proof[4..36] == Zeros(32) && proof[36..68] != vkRoot
    ensures r.Accepted? ==>
              r.wrapper.inputs[0] == program && r.wrapper.inputs[3] == vkRoot && r.wrapper.raw == proof[100..]
    ensures r.Accepted? ==> r.wrapper.inputs[4] == proof[68..100] && r.wrapper.inputs[2] == Zeros(32)
  {
    if |proof| != ENCODED_PROOF_LEN {
      return Refused(WrongLength);
    }
    if proof[..4] != Sha(sha, vk)[..4] {
      return Refused(WrongKeyPrefix);
    }
    if proof[4..36] != Zeros(32) {
      return Refused(GuestFailed);
    }
    if proof[36..68] != vkRoot {
      return Refused(WrongRoot);
    }
    var inputs := Inputs(sha, proof, values, program, vkRoot);
    CanonicalMeans(program);
    CanonicalMeans(vkRoot);
    CanonicalMeans(proof[68..100]);
    MaskedIsCanonical(sha, values);
    ZeroIsCanonical();
    if exists i :: 0 <= i < |inputs| && !LexLess(inputs[i], FR_MODULUS_BE) {
      assert !LexLess(inputs[0], FR_MODULUS_BE) || !LexLess(inputs[3], FR_MODULUS_BE)
          || !LexLess(inputs[4], FR_MODULUS_BE);
      return Refused(Noncanonical);
    }
    assert LexLess(inputs[0], FR_MODULUS_BE) && LexLess(inputs[3], FR_MODULUS_BE) && LexLess(inputs[4], FR_MODULUS_BE);
    r := Accepted(Wrapper(inputs, proof[100..]));
  }

  lemma CanonicalMeans(b: bytes)
    requires |b| == 32
    ensures LexLess(b, FR_MODULUS_BE) <==> ValBE(b) < ValBE(FR_MODULUS_BE)
  {
    hide LexLess, ValBE;
    assert |FR_MODULUS_BE| == 32;
    LexIsNumeric(b, FR_MODULUS_BE);
  }

  lemma ZeroIsCanonical()
    ensures LexLess(Zeros(32), FR_MODULUS_BE)
  {
  }

  // ---------- the mask ----------

  function Pow2(k: nat): (p: nat)
    ensures p > 0
  {
    if k == 0 then 1 else 2 * Pow2(k - 1)
  }

  lemma {:induction false} BitAndMask(a: nat, k: nat)
    ensures BitAnd(a, Pow2(k) - 1) == a % Pow2(k)
  {
    hide BitAnd;
    if k == 0 || a == 0 {
      MaskBase(a, Pow2(k));
    } else {
      assert Pow2(k) == 2 * Pow2(k - 1);
      BitAndMask(a / 2, k - 1);
      MaskStep(a, Pow2(k - 1));
    }
  }

  lemma MaskBase(a: nat, p: nat)
    requires p > 0 && (a == 0 || p == 1)
    ensures BitAnd(a, p - 1) == a % p
  {
    NoBits(a, p - 1);
  }

  lemma MaskStep(a: nat, p: nat)
    requires a != 0 && p > 0 && BitAnd(a / 2, p - 1) == (a / 2) % p
    ensures BitAnd(a, 2 * p - 1) == a % (2 * p)
  {
    hide BitAnd;
    MaskBit(a, p);
    Halve(a, p);
  }

  lemma NoBits(a: nat, b: nat)
    ensures a == 0 || b == 0 ==> BitAnd(a, b) == 0
  {
  }

  lemma MaskBit(a: nat, p: nat)
    requires a != 0 && p > 0
    ensures BitAnd(a, 2 * p - 1) == 2 * BitAnd(a / 2, p - 1) + a % 2
  {
    assert (2 * p - 1) / 2 == p - 1 && (2 * p - 1) % 2 == 1;
  }

  lemma Halve(a: nat, p: nat)
    requires p > 0
    ensures a % (2 * p) == 2 * ((a / 2) % p) + a % 2
  {
    var q, r := (a / 2) / p, (a / 2) % p;
    assert a == q * (2 * p) + (2 * r + a % 2) by { assert a / 2 == q * p + r; }
    Remainder(a, q, 2 * p, 2 * r + a % 2);
  }

  lemma Remainder(a: nat, q: nat, p: nat, r: nat)
    requires r < p && a == q * p + r
    ensures a % p == r
  {
    var k := a / p;
    assert a == k * p + a % p;
    LeadingDigit(q, r, k, a % p, p);
    LeadingDigit(k, a % p, q, r, p);
  }

  lemma AndFull(x: byte)
    ensures BitAnd(x, 0xff) == x
  {
    hide BitAnd;
    Pow2Values();
    BitAndMask(x, 8);
  }

  lemma Pow2Values()
    ensures Pow2(5) == 32 && Pow2(8) == 256
  {
    assert Pow2(2) == 4;
    assert Pow2(4) == 16;
    assert Pow2(6) == 64;
  }

  lemma {:induction false} AndOnes(a: bytes)
    ensures And(a, Ones(|a|)) == a
  {
    hide BitAnd;
    if a != [] {
      assert Ones(|a|)[1..] == Ones(|a| - 1);
      AndOnes(a[1..]);
      AndFull(a[0]);
    }
  }

  lemma MaskedBytes(sha: Hash, values: bytes)
    ensures var d := Sha(sha, values); MaskedDigest(sha, values) == [d[0] % 32] + d[1..]
  {
    var d := Sha(sha, values);
    assert DIGEST_MASK[1..] == Ones(31);
    AndOnes(d[1..]);
    Pow2Values();
    BitAndMask(d[0], 5);
  }

  /** Masking keeps the digest modulo 2^253. */
  lemma MaskIsModulus(sha: Hash, values: bytes)
    ensures ValBE(MaskedDigest(sha, values)) == ValBE(Sha(sha, values)) % (32 * Pow256(31))
  {
    hide Sha, Pow256;
    var d, p := Sha(sha, values), Pow256(31);
    var m := MaskedDigest(sha, values);
    MaskedBytes(sha, values);
    ValBECons(d);
    ValBECons(m);
    ValBEBound(d[1..]);
    assert m[1..] == d[1..] && m[0] == d[0] % 32;
    TopDigit(d[0], p, ValBE(d[1..]));
  }

  lemma TopDigit(x: nat, p: nat, r: nat)
    requires r < p
    ensures (x * p + r) % (32 * p) == (x % 32) * p + r
  {
    var q, y := x / 32, x % 32;
    assert x * p + r == q * (32 * p) + (y * p + r) by { assert x == 32 * q + y; }
    assert y * p + r < 32 * p by { assert (y + 1) * p <= 32 * p by { Scale(y + 1, 32, p); } }
    Remainder(x * p + r, q, 32 * p, y * p + r);
  }

  /** The masked digest is always a canonical scalar, by its first byte. */
  lemma MaskedIsCanonical(sha: Hash, values: bytes)
    ensures LexLess(MaskedDigest(sha, values), FR_MODULUS_BE)
    ensures ValBE(MaskedDigest(sha, values)) < ValBE(FR_MODULUS_BE)
  {
    MaskedBytes(sha, values);
    CanonicalMeans(MaskedDigest(sha, values));
    assert MaskedDigest(sha, values)[0] < 0x20 <= FR_MODULUS_BE[0];
  }

  // ---------- the exported scalar ----------

  /** `field`: the scalar in little-endian bytes with trailing zeros popped. */
  method Field(value: nat, width: nat) returns (encoded: bytes)
    requires value < Pow256(width)
    ensures Val(encoded) == value && |encoded| <= width && (encoded == [] || encoded[|encoded| - 1] != 0)
  {
    encoded := LE(value, width);
    LEVal(value, width);
    while encoded != [] && encoded[|encoded| - 1] == 0
      invariant Val(encoded) == value && |encoded| <= width
    {
      var shorter := encoded[..|encoded| - 1];
      assert encoded == shorter + Zeros(1);
      ValZeroes(shorter, 1);
      encoded := shorter;
    }
  }

  /** The zero-stripped encoding is the only one without trailing zeros. */
  lemma {:induction false} StrippedUnique(a: bytes)
    requires a == [] || a[|a| - 1] != 0
    ensures a == Minimal(Val(a))
  {
    if a != [] {
      StrippedUnique(a[1..]);
      if a[1..] == [] {
        assert a == [a[0]];
      } else {
        NonzeroVal(a[1..]);
      }
      assert Val(a) % 256 == a[0] && Val(a) / 256 == Val(a[1..]);
    }
  }

  lemma {:induction false} NonzeroVal(a: bytes)
    requires a != [] && a[|a| - 1] != 0
    ensures Val(a) != 0
  {
    if |a| > 1 {
      NonzeroVal(a[1..]);
    }
  }

  /** What the host exports for a scalar passes the script's digest check exactly when the scalar is the masked digest;
      reversal, mask and padding in the script invert the stripping here. */
  lemma ExportMeetsScript(sha: Hash, values: bytes, scalar: nat, encoded: bytes)
    requires Val(encoded) == scalar && |encoded| <= 32
    ensures InputIs(encoded, MaskedDigest(sha, values)) <==> scalar == ValBE(Sha(sha, values)) % (32 * Pow256(31))
  {
    MaskIsModulus(sha, values);
  }
}
