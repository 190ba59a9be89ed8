// The digest binding: the masked SHA256 of the statement, reversed byte by byte on the stack, must equal the
// zero-padded public input that the verifier reads from its base stack.
module BridgeDigest {
  import opened Bytes
  import opened Transactions
  import opened Script
  import opened Building
  import opened Calls
  import opened BuilderClass
  import opened TxContext

  function Ones(n: nat): (r: bytes)
    ensures |r| == n && forall i :: 0 <= i < n ==> r[i] == 0xff
  {
    seq(n, _ => 0xff)
  }

  /** Clears the three top bits of a big-endian digest. */
  const DIGEST_MASK: bytes := [0x1f] + Ones(31)

  /** The digest the proof system uses as a scalar, most significant byte first. */
  function MaskedDigest(sha: Hash, values: bytes): (d: bytes)
    ensures |d| == 32
  {
    And(Sha(sha, values), DIGEST_MASK)
  }

  // ---------- calls ----------

  /** One step of the reversal: copy byte `index` of the digest to the end of the accumulator. */
  function MoveByteCalls(p: Prog, index: nat): Prog { Then2(CopyByteCalls(p, index), OP_CAT) }

  function CopyByteCalls(p: Prog, index: nat): Prog {
    Then(Then(Then(Then(p, Do(OP_OVER, 0, 1)), Number(index)), Number(1)), Do(OP_SUBSTR, 3, 1))
  }

  function ReverseCalls(p: Prog, k: nat): Prog
    requires k <= 32
  {
    if k == 0 then p else MoveByteCalls(ReverseCalls(p, k - 1), 32 - k)
  }

  function MaskCalls(p: Prog): Prog {
    Then(Then2(Then(HashCalls(Then(p, Get(PublicValues)), OP_SHA256), Push(DIGEST_MASK)), OP_AND), Push([]))
  }

  /** Reads the second item of the whole stack, whatever lies between. */
  function SecondItemCalls(p: Prog): Prog {
    Then(Then2(Then(Then(p, Do(OP_DEPTH, 0, 1)), Number(2)), OP_SUB), Do(OP_PICK, 1, 1))
  }

  /** How many bytes the top item lacks of 32. */
  function MissingCalls(p: Prog): Prog { Then2(SwapCalls(Then(SizeCalls(p), Number(32))), OP_SUB) }

  /** Pads the top item with zeros to 32 bytes. */
  function PadCalls(p: Prog): Prog { Then2(Then2(SwapCalls(Then(MissingCalls(p), Push(Zeros(32)))), OP_LEFT), OP_CAT) }

  function CompareCalls(p: Prog): Prog { EqualVerify(PadCalls(SecondItemCalls(Then2(p, OP_NIP)))) }

  function DigestCalls(p: Prog): Prog { CompareCalls(ReverseCalls(MaskCalls(p), 32)) }

  method CopyByte(b: Builder, index: nat)
    requires b.Valid() && |b.names| >= 1
    modifies b
    ensures b.Valid() && b.names == old(b.names) + [Anon]
    ensures b.at == old(b.at).(prog := CopyByteCalls(old(b.at).prog, index))
  {
    b.Op(OP_OVER, 0, 1);
    b.Number(index);
    b.Number(1);
    assert b.names == old(b.names) + [Anon, Anon, Anon];
    b.Op(OP_SUBSTR, 3, 1);
    assert b.names == old(b.names) + [Anon];
  }

  method MoveByte(b: Builder, index: nat)
    requires b.Valid() && |b.names| >= 1
    modifies b
    ensures b.Valid() && b.names == old(b.names)[..|old(b.names)| - 1] + [Anon]
    ensures b.at == old(b.at).(prog := MoveByteCalls(old(b.at).prog, index))
  {
    CopyByte(b, index);
    b.Cat();
  }

  method SecondItem(b: Builder)
    requires b.Valid()
    modifies b
    ensures b.Valid() && b.names == old(b.names) + [Anon]
    ensures b.at == old(b.at).(prog := SecondItemCalls(old(b.at).prog))
  {
    b.Op(OP_DEPTH, 0, 1);
    b.Number(2);
    assert b.names == old(b.names) + [Anon, Anon];
    b.Op(OP_SUB, 2, 1);
    assert b.names == old(b.names) + [Anon];
    b.Op(OP_PICK, 1, 1);
    assert b.names == old(b.names) + [Anon];
  }

  method MissingBytes(b: Builder)
    requires b.Valid() && b.names != []
    modifies b
    ensures b.Valid() && b.names == old(b.names) + [Anon]
    ensures b.at == old(b.at).(prog := MissingCalls(old(b.at).prog))
  {
    b.Op(OP_SIZE, 0, 1);
    b.Number(32);
    b.Op(OP_SWAP, 2, 2);
    assert b.names == old(b.names) + [Anon, Anon];
    b.Op(OP_SUB, 2, 1);
    assert b.names == old(b.names) + [Anon];
  }

  method PadTop(b: Builder)
    requires b.Valid() && b.names != []
    modifies b
    ensures b.Valid() && b.names == old(b.names)[..|old(b.names)| - 1] + [Anon]
    ensures b.at == old(b.at).(prog := PadCalls(old(b.at).prog))
  {
    hide MissingCalls;
    MissingBytes(b);
    b.Push(Zeros(32));
    b.Op(OP_SWAP, 2, 2);
    assert b.names == old(b.names) + [Anon, Anon];
    b.Op(OP_LEFT, 2, 1);
    assert b.names == old(b.names) + [Anon];
    b.Cat();
  }

  method MaskDigest(b: Builder)
    requires b.Valid() && PublicValues in b.names
    modifies b
    ensures b.Valid() && b.names == old(b.names) + [Anon, Anon]
    ensures b.at == old(b.at).(prog := MaskCalls(old(b.at).prog))
  {
    b.Get(PublicValues);
    b.Op(OP_SHA256, 1, 1);
    b.Push(DIGEST_MASK);
    b.Op(OP_AND, 2, 1);
    assert b.names == old(b.names) + [Anon];
    b.Push([]);
  }

  /** The reversed digest on top is compared with the padded second item of the base. */
  method CompareDigest(b: Builder, ghost below: seq<Name>)
    requires b.Valid() && b.names == below + [Anon, Anon]
    modifies b
    ensures b.Valid() && b.names == below
    ensures b.at == old(b.at).(prog := CompareCalls(old(b.at).prog))
  {
    hide SecondItemCalls, PadCalls;
    b.Op(OP_NIP, 2, 1);
    assert b.names == below + [Anon];
    SecondItem(b);
    PadTop(b);
    assert b.names == below + [Anon, Anon];
    b.Op(OP_EQUALVERIFY, 2, 0);
    assert b.names == below;
  }

  method BindStatementDigest(b: Builder)
    requires b.Valid() && PublicValues in b.names
    modifies b
    ensures b.Valid() && b.names == old(b.names)
    ensures b.at == old(b.at).(prog := DigestCalls(old(b.at).prog))
  {
    hide MoveByteCalls, CompareCalls, MaskCalls;
    MaskDigest(b);
    var index := 32;
    while index > 0
      invariant 0 <= index <= 32 && b.Valid() && b.names == old(b.names) + [Anon, Anon]
      invariant b.at == old(b.at).(prog := ReverseCalls(MaskCalls(old(b.at).prog), 32 - index))
    {
      index := index - 1;
      MoveByte(b, index);
      assert b.names == old(b.names) + [Anon, Anon];
    }
    CompareDigest(b, old(b.names));
  }

  // ---------- meaning ----------

  lemma MoveByteStep(p: Prog, index: nat, e0: Env, w: World, e: Env, d: bytes, acc: bytes, ok: bool)
    requires Reaches(p, e0, w, Bind(Bind(e, Anon, d), Anon, acc), ok) && index < |d|
    ensures Reaches(MoveByteCalls(p, index), e0, w, Bind(Bind(e, Anon, d), Anon, acc + [d[index]]), ok)
  {
    hide Eval, EvalCmd, SignedNum;
    var e1 := Bind(Bind(e, Anon, d), Anon, acc);
    var p1, e2 := Then(p, Do(OP_OVER, 0, 1)), Bind(e1, Anon, d);
    var p2, e3 := Then(p1, Number(index)), Bind(e2, Anon, SignedNum(index));
    var p3, e4 := Then(p2, Number(1)), Bind(e3, Anon, SignedNum(1));
    OverStep(p, e0, w, e1, ok);
    NumberStep(p1, index, e0, w, e2, ok);
    NumberStep(p2, 1, e0, w, e3, ok);
    Next(p3, Do(OP_SUBSTR, 3, 1), e0, w, e4, ok);
    SubstrMeaning(e1, Anon, d, Anon, SignedNum(index), Anon, SignedNum(1), w);
    assert d[index..index + 1] == [d[index]];
    CatStep(Then(p3, Do(OP_SUBSTR, 3, 1)), e0, w, Bind(e1, Anon, [d[index]]), ok);
  }

  /** After `k` steps the accumulator holds the last `k` bytes in reverse. */
  lemma {:induction false} ReverseStep(p: Prog, k: nat, e0: Env, w: World, e: Env, d: bytes, ok: bool)
    requires Reaches(p, e0, w, Bind(Bind(e, Anon, d), Anon, []), ok) && |d| == 32 && k <= 32
    ensures Reaches(ReverseCalls(p, k), e0, w, Bind(Bind(e, Anon, d), Anon, Reverse(d[32 - k..])), ok)
  {
    hide Reaches, MoveByteCalls;
    if k != 0 {
      ReverseStep(p, k - 1, e0, w, e, d, ok);
      MoveByteStep(ReverseCalls(p, k - 1), 32 - k, e0, w, e, d, Reverse(d[32 - (k - 1)..]), ok);
      assert d[32 - k..][1..] == d[32 - (k - 1)..];
    }
  }

  lemma MaskStep(p: Prog, e0: Env, w: World, e: Env, ok: bool)
    requires Reaches(p, e0, w, e, ok)
    ensures Reaches(MaskCalls(p), e0, w, Bind(Bind(e, Anon, MaskedDigest(w.sha, Lookup(e, PublicValues))), Anon, []),
                    ok)
  {
    hide Reaches, HashCalls, Lookup, Sha, And;
    var v := Lookup(e, PublicValues);
    var p1 := HashCalls(Then(p, Get(PublicValues)), OP_SHA256);
    var e1 := Bind(e, Anon, Sha(w.sha, v));
    GetStep(p, PublicValues, e0, w, e, ok);
    HashStep(Then(p, Get(PublicValues)), OP_SHA256, e0, w, Bind(e, Anon, v), ok);
    PushStep(p1, DIGEST_MASK, e0, w, e1, ok);
    JoinStep(Then(p1, Push(DIGEST_MASK)), OP_AND, e0, w, Bind(e1, Anon, DIGEST_MASK), ok);
    PushStep(Then2(Then(p1, Push(DIGEST_MASK)), OP_AND), [], e0, w, Bind(e, Anon, MaskedDigest(w.sha, v)), ok);
  }

  lemma SecondItemStep(p: Prog, e0: Env, w: World, e: Env, ok: bool)
    requires Reaches(p, e0, w, e, ok) && |Flat(e)| >= 2
    ensures Reaches(SecondItemCalls(p), e0, w, Bind(e, Anon, Flat(e)[1]), ok)
  {
    hide Reaches, SignedNum, Minimal, Flat;
    var n := |Flat(e)|;
    var p1, e1 := Then(p, Do(OP_DEPTH, 0, 1)), Bind(e, Anon, Minimal(n));
    var p2, e2 := Then(p1, Number(2)), Bind(e1, Anon, SignedNum(2));
    DepthStep(p, e0, w, e, ok);
    NumberStep(p1, 2, e0, w, e1, ok);
    MinimalVal(n);
    JoinStep(p2, OP_SUB, e0, w, e2, ok);
    MinimalVal(n - 2);
    PickStep(Then2(p2, OP_SUB), e0, w, Bind(e, Anon, Minimal(n - 2)), ok);
  }

  lemma PadStep(p: Prog, e0: Env, w: World, e: Env, x: bytes, ok: bool)
    requires Reaches(p, e0, w, Bind(e, Anon, x), ok)
    ensures Reaches(PadCalls(p), e0, w, Bind(e, Anon, if |x| <= 32 then x + Zeros(32 - |x|) else x), ok && |x| <= 32)
  {
    hide Reaches, SignedNum, Minimal;
    var e1, size, k := Bind(e, Anon, x), Minimal(|x|), ok && |x| <= 32;
    var p1, p2 := SizeCalls(p), Then(SizeCalls(p), Number(32));
    var p3 := Then2(SwapCalls(p2), OP_SUB);
    var rest := if |x| <= 32 then Minimal(32 - |x|) else [];
    var p4 := SwapCalls(Then(p3, Push(Zeros(32))));
    SizeStep(p, e0, w, e1, ok);
    NumberStep(p1, 32, e0, w, Bind(e1, Anon, size), ok);
    SwapStep(p2, e0, w, Bind(Bind(e1, Anon, size), Anon, SignedNum(32)), ok);
    MinimalVal(|x|);
    JoinStep(SwapCalls(p2), OP_SUB, e0, w, Bind(Bind(e1, Anon, SignedNum(32)), Anon, size), ok);
    if |x| <= 32 {
      MinimalVal(32 - |x|);
      assert Zeros(32)[0..32 - |x|] == Zeros(32 - |x|);
    }
    PushStep(p3, Zeros(32), e0, w, Bind(e1, Anon, rest), k);
    SwapStep(Then(p3, Push(Zeros(32))), e0, w, Bind(Bind(e1, Anon, rest), Anon, Zeros(32)), k);
    JoinStep(p4, OP_LEFT, e0, w, Bind(Bind(e1, Anon, Zeros(32)), Anon, rest), k);
    var pad := if |x| <= 32 then Zeros(32 - |x|) else [];
    Restate(Then2(p4, OP_LEFT), e0, w, Bind(e1, Anon, Got(Joined(OP_LEFT, Zeros(32), rest, w))), k,
            Bind(e1, Anon, pad), k);
    CatStep(Then2(p4, OP_LEFT), e0, w, Bind(e1, Anon, pad), k);
    Restate(PadCalls(p), e0, w, Bind(e, Anon, x + pad), k,
            Bind(e, Anon, if |x| <= 32 then x + Zeros(32 - |x|) else x), k);
  }

  /** The public input at the bottom of the stack is the masked digest, as a number, in at most 32 bytes. */
  predicate InputIs(item: bytes, digest: bytes) { |item| <= 32 && Val(item) == ValBE(digest) }

  lemma PaddedIsReversed(item: bytes, d: bytes)
    requires |d| == 32 && |item| <= 32
    ensures Reverse(d) == item + Zeros(32 - |item|) <==> InputIs(item, d)
  {
    var x := item + Zeros(32 - |item|);
    ReverseVal(d);
    ValZeroes(item, 32 - |item|);
    if InputIs(item, d) {
      ValInjective(Reverse(d), x);
    }
  }

  /** The 32-step reversal, the mask and the padding accept exactly a second stack item of at most 32 bytes whose
      little-endian value is the big-endian value of the masked digest; nothing on the stack changes. */
  lemma DigestStep(p: Prog, e0: Env, w: World, e: Env, ok: bool)
    requires Reaches(p, e0, w, e, ok) && |Flat(e)| >= 2
    ensures Reaches(DigestCalls(p), e0, w, e, ok && InputIs(Flat(e)[1], MaskedDigest(w.sha, Lookup(e, PublicValues))))
  {
    hide Reaches, MaskCalls, ReverseCalls, SecondItemCalls, PadCalls, Lookup, MaskedDigest, InputIs, Flat;
    var d, item := MaskedDigest(w.sha, Lookup(e, PublicValues)), Flat(e)[1];
    var p1, p2 := MaskCalls(p), ReverseCalls(MaskCalls(p), 32);
    var p3, e3 := Then2(p2, OP_NIP), Bind(e, Anon, Reverse(d));
    MaskStep(p, e0, w, e, ok);
    ReverseStep(p1, 32, e0, w, e, d, ok);
    assert d[32 - 32..] == d;
    JoinStep(p2, OP_NIP, e0, w, Bind(Bind(e, Anon, d), Anon, Reverse(d)), ok);
    assert |Flat(e3)| >= 2 && Flat(e3)[1] == item by { FlatBind(e, Anon, Reverse(d)); }
    SecondItemStep(p3, e0, w, e3, ok);
    PadStep(SecondItemCalls(p3), e0, w, e3, item, ok);
    var x := if |item| <= 32 then item + Zeros(32 - |item|) else item;
    EqualStep(PadCalls(SecondItemCalls(p3)), e0, w, Bind(e3, Anon, x), ok && |item| <= 32);
    if |item| <= 32 {
      PaddedIsReversed(item, d);
    } else {
      TooLong(item, d);
    }
  }

  lemma TooLong(item: bytes, d: bytes)
    requires |item| > 32
    ensures !InputIs(item, d)
  {
  }

  lemma FlatBind(e: Env, n: Name, v: bytes)
    ensures Flat(Bind(e, n, v)) == Flat(e) + [v]
  {
  }
}
