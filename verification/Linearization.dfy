// State and caboose encodings, and the fixed-offset transaction checks: the builder methods that emit them,
// and proofs that the emitted checks accept exactly the serializations of plain transactions.
module Linearization {
  import opened Bytes
  import opened Transactions
  import opened Script
  import opened Building
  import opened Calls
  import opened BuilderClass

  const LEAF_VERSION: byte := 0xc2
  const MAGIC: bytes := [0x55, 0x54, 0x58, 0x4f, 0x4c, 0x49, 0x4e]
  const STATE_VERSION: byte := 1
  const GENESIS_MARK: bytes := MAGIC + [STATE_VERSION, 0]
  const ACTIVE_MARK: bytes := MAGIC + [STATE_VERSION, 1]
  const CABOOSE_VALUE: nat := 330
  const MINER_FEE: nat := 10_000

  function GenesisState(root: bytes): bytes { GENESIS_MARK + root }

  function ActiveState(bridgeId: bytes, root: bytes): bytes { ACTIVE_MARK + bridgeId + root }

  /** The preimage of the caboose script hash: OP_RETURN with the state hash and a zero randomizer. */
  function CabooseScript(sha: Hash, state: bytes): bytes { [0x6a, 0x24] + Sha(sha, state) + Zeros(4) }

  function CabooseSpk(sha: Hash, state: bytes): bytes { [0x00, 0x20] + Sha(sha, CabooseScript(sha, state)) }

  lemma CabooseLength(sha: Hash, state: bytes)
    ensures |CabooseSpk(sha, state)| == 34
  {
  }

  // ---------- the caboose of a state ----------

  function MakeCabooseCalls(p: Prog, state: Name, result: Name): Prog {
    Then(PrefixCalls(HashCalls(SuffixCalls(PrefixCalls(HashCalls(Then(p, Get(state)), OP_SHA256), [0x6a, 0x24]),
      Zeros(4)), OP_SHA256), [0x00, 0x20]), Rename(result))
  }

  lemma MakeCabooseStep(p: Prog, state: Name, result: Name, e0: Env, w: World, e: Env, ok: bool)
    requires Reaches(p, e0, w, e, ok)
    ensures Reaches(MakeCabooseCalls(p, state, result), e0, w, Bind(e, result, CabooseSpk(w.sha, Lookup(e, state))), ok)
  {
    hide Eval, PrefixCalls, SuffixCalls, HashCalls;
    var x := Lookup(e, state);
    var p1 := Then(p, Get(state));
    var p2 := HashCalls(p1, OP_SHA256);
    var p3 := PrefixCalls(p2, [0x6a, 0x24]);
    var p4 := SuffixCalls(p3, Zeros(4));
    var p5 := HashCalls(p4, OP_SHA256);
    GetStep(p, state, e0, w, e, ok);
    HashStep(p1, OP_SHA256, e0, w, Bind(e, Anon, x), ok);
    PrefixStep(p2, [0x6a, 0x24], e0, w, Bind(e, Anon, Sha(w.sha, x)), ok);
    SuffixStep(p3, Zeros(4), e0, w, Bind(e, Anon, [0x6a, 0x24] + Sha(w.sha, x)), ok);
    HashStep(p4, OP_SHA256, e0, w, Bind(e, Anon, CabooseScript(w.sha, x)), ok);
    PrefixStep(p5, [0x00, 0x20], e0, w, Bind(e, Anon, Sha(w.sha, CabooseScript(w.sha, x))), ok);
    NameStep(PrefixCalls(p5, [0x00, 0x20]), result, e0, w, Bind(e, Anon, CabooseSpk(w.sha, x)), ok);
  }

  method MakeCaboose(b: Builder, state: Name, result: Name)
    requires b.Valid() && state in b.names
    modifies b
    ensures b.Valid() && b.names == old(b.names) + [result]
    ensures b.at == old(b.at).(prog := MakeCabooseCalls(old(b.at).prog, state, result))
  {
    hide PrefixCalls, EmitCmd, Position;
    b.Get(state);
    b.Op(OP_SHA256, 1, 1);
    PrefixTop(b, [0x6a, 0x24]);
    b.Push(Zeros(4));
    b.Cat();
    b.Op(OP_SHA256, 1, 1);
    PrefixTop(b, [0x00, 0x20]);
    b.SetName(result);
    assert b.names == old(b.names) + [result];
  }

  /** The push, swap and concatenate that put a constant in front of the top item. */
  method PrefixTop(b: Builder, x: bytes)
    requires b.Valid() && b.names != []
    modifies b
    ensures b.Valid() && b.names == old(b.names)[..|old(b.names)| - 1] + [Anon]
    ensures b.at == old(b.at).(prog := PrefixCalls(old(b.at).prog, x))
  {
    b.Push(x);
    b.Op(OP_SWAP, 2, 2);
    b.Cat();
  }

  // ---------- shape checks ----------

  /** The input tails of the first `k` inputs. */
  function TailsCalls(p: Prog, n: Name, k: nat): Prog {
    if k == 0 then p else EqualSliceCalls(TailsCalls(p, n, k - 1), n, 41 + 41 * (k - 1), PLAIN_TAIL)
  }

  predicate TailsMatch(w: World, b: bytes, k: nat) {
    forall i :: 0 <= i < k ==> SliceIs(w, b, 41 + 41 * i, PLAIN_TAIL)
  }

  lemma {:induction false} TailsStep(p: Prog, n: Name, k: nat, e0: Env, w: World, e: Env, ok: bool)
    requires Reaches(p, e0, w, e, ok)
    ensures Reaches(TailsCalls(p, n, k), e0, w, e, ok && TailsMatch(w, Lookup(e, n), k))
  {
    hide Reaches, EqualSliceCalls, SliceIs;
    if k != 0 {
      TailsStep(p, n, k - 1, e0, w, e, ok);
      EqualSliceStep(TailsCalls(p, n, k - 1), n, 41 + 41 * (k - 1), PLAIN_TAIL, e0, w, e,
                     ok && TailsMatch(w, Lookup(e, n), k - 1));
    }
  }

  /** The script-length markers of the first `k` outputs, the first one at `offset`. */
  function MarkersCalls(p: Prog, n: Name, offset: nat, k: nat): Prog {
    if k == 0 then p else EqualSliceCalls(MarkersCalls(p, n, offset, k - 1), n, offset + 43 * (k - 1), [0x22])
  }

  predicate MarkersMatch(w: World, b: bytes, offset: nat, k: nat) {
    forall j :: 0 <= j < k ==> SliceIs(w, b, offset + 43 * j, [0x22])
  }

  lemma {:induction false} MarkersStep(p: Prog, n: Name, offset: nat, k: nat, e0: Env, w: World, e: Env, ok: bool)
    requires Reaches(p, e0, w, e, ok)
    ensures Reaches(MarkersCalls(p, n, offset, k), e0, w, e, ok && MarkersMatch(w, Lookup(e, n), offset, k))
  {
    hide Reaches, EqualSliceCalls, SliceIs;
    if k != 0 {
      MarkersStep(p, n, offset, k - 1, e0, w, e, ok);
      EqualSliceStep(MarkersCalls(p, n, offset, k - 1), n, offset + 43 * (k - 1), [0x22], e0, w, e,
                     ok && MarkersMatch(w, Lookup(e, n), offset, k - 1));
    }
  }

  function EqualNumberByteCalls(p: Prog, n: Name, offset: nat, value: nat): Prog {
    NumEqualVerify(Then(SliceCalls(p, n, offset, 1), Number(value)))
  }

  predicate NumberByteIs(w: World, b: bytes, offset: nat, value: nat) {
    var s := Substr(w, b, offset, 1); s.Some? && Val(s.value) == value
  }

  lemma EqualNumberByteStep(p: Prog, n: Name, offset: nat, value: nat, e0: Env, w: World, e: Env, ok: bool)
    requires Reaches(p, e0, w, e, ok)
    ensures Reaches(EqualNumberByteCalls(p, n, offset, value), e0, w, e,
                    ok && NumberByteIs(w, Lookup(e, n), offset, value))
  {
    hide Eval, SliceCalls, Substr, SignedNum;
    var p1 := SliceCalls(p, n, offset, 1);
    var s := Substr(w, Lookup(e, n), offset, 1);
    var e1 := Bind(e, Anon, Got(s));
    SliceStep(p, n, offset, 1, e0, w, e, ok);
    NumberStep(p1, value, e0, w, e1, ok && s.Some?);
    NumEqualStep(Then(p1, Number(value)), e0, w, Bind(e1, Anon, SignedNum(value)), ok && s.Some?);
  }

  lemma NumberByteIsAt(w: World, b: bytes, offset: nat, value: byte)
    requires offset < |b|
    ensures NumberByteIs(w, b, offset, value) <==> At(b, offset, [value])
  {
    var s := b[offset..offset + 1];
    assert s == [b[offset]];
    assert s[1..] == [];
    assert Val(s) == b[offset];
  }

  // ---------- one input, two outputs ----------

  function CommonTransactionCalls(p: Prog, n: Name, size: nat): Prog
    requires size >= 4
  {
    EqualSliceCalls(EqualSliceCalls(RequireSizeCalls(p, n, size), n, 0, [2, 0, 0, 0]), n, size - 4, Zeros(4))
  }

  method CheckCommonTransaction(b: Builder, n: Name, size: nat)
    requires b.Valid() && n in b.names && size >= 4
    modifies b
    ensures b.Valid() && b.names == old(b.names)
    ensures b.at == old(b.at).(prog := CommonTransactionCalls(old(b.at).prog, n, size))
  {
    b.RequireSize(n, size);
    b.EqualSlice(n, 0, [2, 0, 0, 0]);
    b.EqualSlice(n, size - 4, Zeros(4));
  }

  function OneInputTwoOutputCalls(p: Prog, n: Name): Prog {
    EqualSliceCalls(EqualSliceCalls(EqualSliceCalls(EqualSliceCalls(
      CommonTransactionCalls(p, n, 137), n, 0, [2, 0, 0, 0, 1]), n, 41, PLAIN_TAIL + [2]), n, 55, [0x22]), n, 98,
        [0x22])
  }

  method CheckOneInputTwoOutput(b: Builder, n: Name)
    requires b.Valid() && n in b.names
    modifies b
    ensures b.Valid() && b.names == old(b.names)
    ensures b.at == old(b.at).(prog := OneInputTwoOutputCalls(old(b.at).prog, n))
  {
    CheckCommonTransaction(b, n, 137);
    b.EqualSlice(n, 0, [2, 0, 0, 0, 1]);
    b.EqualSlice(n, 41, PLAIN_TAIL + [2]);
    b.EqualSlice(n, 55, [0x22]);
    b.EqualSlice(n, 98, [0x22]);
  }

  predicate OneTwoMatch(w: World, b: bytes) {
    && |b| == 137
    && SliceIs(w, b, 0, [2, 0, 0, 0]) && SliceIs(w, b, 133, Zeros(4))
    && SliceIs(w, b, 0, [2, 0, 0, 0, 1]) && SliceIs(w, b, 41, PLAIN_TAIL + [2])
    && SliceIs(w, b, 55, [0x22]) && SliceIs(w, b, 98, [0x22])
  }

  lemma OneTwoMatches(w: World, b: bytes)
    ensures OneTwoMatch(w, b) <==> PlainShape(b, 1, 2)
  {
    assert Zeros(4) == [0, 0, 0, 0];
    if |b| == 137 {
      var s := b[41..47];
      assert s == b[41..46] + b[46..47];
      assert PLAIN_TAIL + [2] == b[41..46] + b[46..47] <==> (PLAIN_TAIL == b[41..46] && [2] == b[46..47]) by {
        if PLAIN_TAIL + [2] == b[41..46] + b[46..47] {
          Peel(PLAIN_TAIL, [2], b[41..46], b[46..47]);
        }
      }
      assert At(b, 0, [2, 0, 0, 0, 1]) ==> b[0..4] == [2, 0, 0, 0] by {
        assert b[0..4] == b[0..5][0..4];
      }
      if OneTwoMatch(w, b) {
        forall i | 0 <= i < 1 ensures At(b, 41 + 41 * i, PLAIN_TAIL) {
        }
        forall j | 0 <= j < 2 ensures At(b, 55 + 43 * j, [0x22]) {
          assert j == 0 || j == 1;
        }
      }
      if PlainShape(b, 1, 2) {
        assert At(b, 41 + 41 * 0, PLAIN_TAIL);
        assert At(b, 14 + 41 * 1 + 43 * 0, [0x22]) && At(b, 14 + 41 * 1 + 43 * 1, [0x22]);
      }
    }
  }

  lemma OneInputTwoOutputStep(p: Prog, n: Name, e0: Env, w: World, e: Env, ok: bool)
    requires Reaches(p, e0, w, e, ok)
    ensures Reaches(OneInputTwoOutputCalls(p, n), e0, w, e, ok && PlainShape(Lookup(e, n), 1, 2))
  {
    hide Reaches, EqualSliceCalls, RequireSizeCalls, SliceIs, PlainShape;
    var b := Lookup(e, n);
    var p0, k0 := RequireSizeCalls(p, n, 137), ok && |b| == 137;
    var p1, k1 := EqualSliceCalls(p0, n, 0, [2, 0, 0, 0]), k0 && SliceIs(w, b, 0, [2, 0, 0, 0]);
    var p2, k2 := EqualSliceCalls(p1, n, 133, Zeros(4)), k1 && SliceIs(w, b, 133, Zeros(4));
    var p3, k3 := EqualSliceCalls(p2, n, 0, [2, 0, 0, 0, 1]), k2 && SliceIs(w, b, 0, [2, 0, 0, 0, 1]);
    var p4, k4 := EqualSliceCalls(p3, n, 41, PLAIN_TAIL + [2]), k3 && SliceIs(w, b, 41, PLAIN_TAIL + [2]);
    var p5, k5 := EqualSliceCalls(p4, n, 55, [0x22]), k4 && SliceIs(w, b, 55, [0x22]);
    RequireSizeStep(p, n, 137, e0, w, e, ok);
    EqualSliceStep(p0, n, 0, [2, 0, 0, 0], e0, w, e, k0);
    EqualSliceStep(p1, n, 133, Zeros(4), e0, w, e, k1);
    EqualSliceStep(p2, n, 0, [2, 0, 0, 0, 1], e0, w, e, k2);
    EqualSliceStep(p3, n, 41, PLAIN_TAIL + [2], e0, w, e, k3);
    EqualSliceStep(p4, n, 55, [0x22], e0, w, e, k4);
    EqualSliceStep(p5, n, 98, [0x22], e0, w, e, k5);
    OneTwoMatches(w, b);
  }

  // ---------- two inputs, three outputs ----------

  function TwoInputThreeOutputCalls(p: Prog, n: Name): Prog {
    MarkersCalls(EqualSliceCalls(EqualSliceCalls(EqualSliceCalls(CommonTransactionCalls(p, n, 221), n, 0,
                                                                 [2, 0, 0, 0, 2]),
      n, 41, PLAIN_TAIL), n, 82, PLAIN_TAIL + [3]), n, 96, 3)
  }

  method CheckTwoInputThreeOutput(b: Builder, n: Name)
    requires b.Valid() && n in b.names
    modifies b
    ensures b.Valid() && b.names == old(b.names)
    ensures b.at == old(b.at).(prog := TwoInputThreeOutputCalls(old(b.at).prog, n))
  {
    CheckCommonTransaction(b, n, 221);
    b.EqualSlice(n, 0, [2, 0, 0, 0, 2]);
    b.EqualSlice(n, 41, PLAIN_TAIL);
    b.EqualSlice(n, 82, PLAIN_TAIL + [3]);
    CheckMarkers(b, n, 96, 3);
  }

  predicate TwoThreeMatch(w: World, b: bytes) {
    && |b| == 221
    && SliceIs(w, b, 0, [2, 0, 0, 0]) && SliceIs(w, b, 217, Zeros(4))
    && SliceIs(w, b, 0, [2, 0, 0, 0, 2]) && SliceIs(w, b, 41, PLAIN_TAIL) && SliceIs(w, b, 82, PLAIN_TAIL + [3])
    && MarkersMatch(w, b, 96, 3)
  }

  lemma TwoThreeMatches(w: World, b: bytes)
    ensures TwoThreeMatch(w, b) <==> PlainShape(b, 2, 3)
  {
    assert Zeros(4) == [0, 0, 0, 0];
    if |b| == 221 {
      assert b[82..88] == b[82..87] + b[87..88];
      if PLAIN_TAIL + [3] == b[82..88] {
        Peel(PLAIN_TAIL, [3], b[82..87], b[87..88]);
      }
      assert b[0..4] == b[0..5][0..4];
      if TwoThreeMatch(w, b) {
        forall i: nat | i < 2 ensures At(b, 41 + 41 * i, PLAIN_TAIL) {
          assert i == 0 || i == 1;
        }
        forall j: nat | j < 3 ensures At(b, 14 + 41 * 2 + 43 * j, [0x22]) {
          assert SliceIs(w, b, 96 + 43 * j, [0x22]);
        }
        assert At(b, 5 + 41 * 2, [3]) && At(b, |b| - 4, [0, 0, 0, 0]);
        assert PlainShape(b, 2, 3);
      }
      if PlainShape(b, 2, 3) {
        assert At(b, 41 + 41 * 0, PLAIN_TAIL) && At(b, 41 + 41 * 1, PLAIN_TAIL) && At(b, 5 + 41 * 2, [3]);
        forall j: nat | j < 3 ensures SliceIs(w, b, 96 + 43 * j, [0x22]) {
          assert At(b, 14 + 41 * 2 + 43 * j, [0x22]);
        }
        assert MarkersMatch(w, b, 96, 3);
        assert SliceIs(w, b, 82, PLAIN_TAIL + [3]);
        assert At(b, 217, Zeros(4)) && b[0..5] == [2, 0, 0, 0, 2];
        assert At(b, 0, [2, 0, 0, 0]);
      }
    }
  }

  lemma TwoInputThreeOutputStep(p: Prog, n: Name, e0: Env, w: World, e: Env, ok: bool)
    requires Reaches(p, e0, w, e, ok)
    ensures Reaches(TwoInputThreeOutputCalls(p, n), e0, w, e, ok && PlainShape(Lookup(e, n), 2, 3))
  {
    hide Reaches, EqualSliceCalls, RequireSizeCalls, MarkersCalls, SliceIs, PlainShape, MarkersMatch, Lookup;
    var b := Lookup(e, n);
    var p0, k0 := RequireSizeCalls(p, n, 221), ok && |b| == 221;
    var p1, k1 := EqualSliceCalls(p0, n, 0, [2, 0, 0, 0]), k0 && SliceIs(w, b, 0, [2, 0, 0, 0]);
    var p2, k2 := EqualSliceCalls(p1, n, 217, Zeros(4)), k1 && SliceIs(w, b, 217, Zeros(4));
    var p3, k3 := EqualSliceCalls(p2, n, 0, [2, 0, 0, 0, 2]), k2 && SliceIs(w, b, 0, [2, 0, 0, 0, 2]);
    var p4, k4 := EqualSliceCalls(p3, n, 41, PLAIN_TAIL), k3 && SliceIs(w, b, 41, PLAIN_TAIL);
    var p5, k5 := EqualSliceCalls(p4, n, 82, PLAIN_TAIL + [3]), k4 && SliceIs(w, b, 82, PLAIN_TAIL + [3]);
    RequireSizeStep(p, n, 221, e0, w, e, ok);
    EqualSliceStep(p0, n, 0, [2, 0, 0, 0], e0, w, e, k0);
    EqualSliceStep(p1, n, 217, Zeros(4), e0, w, e, k1);
    EqualSliceStep(p2, n, 0, [2, 0, 0, 0, 2], e0, w, e, k2);
    EqualSliceStep(p3, n, 41, PLAIN_TAIL, e0, w, e, k3);
    EqualSliceStep(p4, n, 82, PLAIN_TAIL + [3], e0, w, e, k4);
    MarkersStep(p5, n, 96, 3, e0, w, e, k5);
    TwoThreeMatches(w, b);
  }

  // ---------- collections and settlements ----------

  function CollectionTransactionCalls(p: Prog, n: Name): Prog {
    EqualSliceCalls(MarkersCalls(EqualNumberByteCalls(TailsCalls(
      EqualSliceCalls(RequireSizeCalls(p, n, 303), n, 0, [2, 0, 0, 0, 4]), n, 4), n, 169, 3), n, 178, 3),
      n, 299, Zeros(4))
  }

  method CheckCollectionTransaction(b: Builder, n: Name)
    requires b.Valid() && n in b.names
    modifies b
    ensures b.Valid() && b.names == old(b.names)
    ensures b.at == old(b.at).(prog := CollectionTransactionCalls(old(b.at).prog, n))
  {
    b.RequireSize(n, 303);
    b.EqualSlice(n, 0, [2, 0, 0, 0, 4]);
    CheckTails(b, n, 4);
    EqualNumberByte(b, n, 169, 3);
    CheckMarkers(b, n, 178, 3);
    b.EqualSlice(n, 299, Zeros(4));
  }

  method CheckTails(b: Builder, n: Name, k: nat)
    requires b.Valid() && n in b.names
    modifies b
    ensures b.Valid() && b.names == old(b.names)
    ensures b.at == old(b.at).(prog := TailsCalls(old(b.at).prog, n, k))
  {
    var i := 0;
    while i < k
      invariant 0 <= i <= k && b.Valid() && b.names == old(b.names)
      invariant b.at == old(b.at).(prog := TailsCalls(old(b.at).prog, n, i))
    {
      b.EqualSlice(n, 41 + 41 * i, PLAIN_TAIL);
      i := i + 1;
    }
  }

  method CheckMarkers(b: Builder, n: Name, offset: nat, k: nat)
    requires b.Valid() && n in b.names
    modifies b
    ensures b.Valid() && b.names == old(b.names)
    ensures b.at == old(b.at).(prog := MarkersCalls(old(b.at).prog, n, offset, k))
  {
    var j := 0;
    while j < k
      invariant 0 <= j <= k && b.Valid() && b.names == old(b.names)
      invariant b.at == old(b.at).(prog := MarkersCalls(old(b.at).prog, n, offset, j))
    {
      b.EqualSlice(n, offset + 43 * j, [0x22]);
      j := j + 1;
    }
  }

  method EqualNumberByte(b: Builder, n: Name, offset: nat, value: nat)
    requires b.Valid() && n in b.names
    modifies b
    ensures b.Valid() && b.names == old(b.names)
    ensures b.at == old(b.at).(prog := EqualNumberByteCalls(old(b.at).prog, n, offset, value))
  {
    b.Slice(n, offset, 1);
    b.Number(value);
    b.Op(OP_NUMEQUALVERIFY, 2, 0);
  }

  predicate PlainMatch(w: World, b: bytes, ins: byte, outs: byte) {
    && |b| == PlainSize(ins, outs)
    && SliceIs(w, b, 0, [2, 0, 0, 0, ins]) && TailsMatch(w, b, ins)
    && NumberByteIs(w, b, 5 + 41 * ins, outs) && MarkersMatch(w, b, 14 + 41 * ins, outs)
    && SliceIs(w, b, |b| - 4, Zeros(4))
  }

  lemma PlainMatches(w: World, b: bytes, ins: byte, outs: byte)
    ensures PlainMatch(w, b, ins, outs) <==> PlainShape(b, ins, outs)
  {
    hide NumberByteIs;
    assert Zeros(4) == [0, 0, 0, 0];
    if |b| == PlainSize(ins, outs) {
      NumberByteIsAt(w, b, 5 + 41 * ins, outs);
      if PlainMatch(w, b, ins, outs) {
        forall i | 0 <= i < ins ensures At(b, 41 + 41 * i, PLAIN_TAIL) {
          assert SliceIs(w, b, 41 + 41 * i, PLAIN_TAIL);
        }
        forall j | 0 <= j < outs ensures At(b, 14 + 41 * ins + 43 * j, [0x22]) {
          assert SliceIs(w, b, 14 + 41 * ins + 43 * j, [0x22]);
        }
      }
      if PlainShape(b, ins, outs) {
        forall i | 0 <= i < ins ensures SliceIs(w, b, 41 + 41 * i, PLAIN_TAIL) {
          assert At(b, 41 + 41 * i, PLAIN_TAIL);
        }
        forall j | 0 <= j < outs ensures SliceIs(w, b, 14 + 41 * ins + 43 * j, [0x22]) {
          assert At(b, 14 + 41 * ins + 43 * j, [0x22]);
        }
      }
    }
  }

  lemma CollectionTransactionStep(p: Prog, n: Name, e0: Env, w: World, e: Env, ok: bool)
    requires Reaches(p, e0, w, e, ok)
    ensures Reaches(CollectionTransactionCalls(p, n), e0, w, e, ok && PlainShape(Lookup(e, n), 4, 3))
  {
    hide Reaches, EqualSliceCalls, RequireSizeCalls, TailsCalls, MarkersCalls, EqualNumberByteCalls;
    hide SliceIs, PlainShape, TailsMatch, MarkersMatch, NumberByteIs;
    var b := Lookup(e, n);
    var p0, k0 := RequireSizeCalls(p, n, 303), ok && |b| == 303;
    var p1, k1 := EqualSliceCalls(p0, n, 0, [2, 0, 0, 0, 4]), k0 && SliceIs(w, b, 0, [2, 0, 0, 0, 4]);
    var p2, k2 := TailsCalls(p1, n, 4), k1 && TailsMatch(w, b, 4);
    var p3, k3 := EqualNumberByteCalls(p2, n, 169, 3), k2 && NumberByteIs(w, b, 169, 3);
    var p4, k4 := MarkersCalls(p3, n, 178, 3), k3 && MarkersMatch(w, b, 178, 3);
    RequireSizeStep(p, n, 303, e0, w, e, ok);
    EqualSliceStep(p0, n, 0, [2, 0, 0, 0, 4], e0, w, e, k0);
    TailsStep(p1, n, 4, e0, w, e, k1);
    EqualNumberByteStep(p2, n, 169, 3, e0, w, e, k2);
    MarkersStep(p3, n, 178, 3, e0, w, e, k3);
    EqualSliceStep(p4, n, 299, Zeros(4), e0, w, e, k4);
    PlainMatches(w, b, 4, 3);
  }

  /** The settlement check compares the size as bytes, so it relies on both encodings of 264 being minimal. */
  function SettlementSizeCalls(p: Prog, n: Name): Prog {
    DropTop(EqualVerify(Then(SizeCalls(Then(p, Get(n))), Number(264))))
  }

  lemma SettlementSizeStep(p: Prog, n: Name, e0: Env, w: World, e: Env, ok: bool)
    requires Reaches(p, e0, w, e, ok)
    ensures Reaches(SettlementSizeCalls(p, n), e0, w, e, ok && |Lookup(e, n)| == 264)
  {
    hide Reaches, SignedNum, Minimal;
    var v := Lookup(e, n);
    var p1, e1 := Then(p, Get(n)), Bind(e, Anon, v);
    var p2, e2 := SizeCalls(p1), Bind(e1, Anon, Minimal(|v|));
    var p3, e3 := Then(p2, Number(264)), Bind(e2, Anon, SignedNum(264));
    GetStep(p, n, e0, w, e, ok);
    SizeStep(p1, e0, w, e1, ok);
    NumberStep(p2, 264, e0, w, e2, ok);
    EqualStep(p3, e0, w, e3, ok);
    Minimal264();
    DropStep(EqualVerify(p3), e0, w, e1, ok && |v| == 264);
  }

  lemma Minimal264()
    ensures SignedNum(264) == Minimal(264) == [8, 1]
  {
    assert Minimal(1) == [1];
    assert Minimal(264) == [8] + Minimal(1);
  }

  function SettlementTransactionCalls(p: Prog, n: Name): Prog {
    EqualSliceCalls(MarkersCalls(EqualNumberByteCalls(TailsCalls(
      EqualSliceCalls(SettlementSizeCalls(p, n), n, 0, [2, 0, 0, 0, 2]), n, 2), n, 87, 4), n, 96, 4),
      n, 260, Zeros(4))
  }

  method CheckSettlementTransaction(b: Builder, n: Name)
    requires b.Valid() && n in b.names
    modifies b
    ensures b.Valid() && b.names == old(b.names)
    ensures b.at == old(b.at).(prog := SettlementTransactionCalls(old(b.at).prog, n))
  {
    b.Get(n);
    b.Op(OP_SIZE, 0, 1);
    b.Number(264);
    b.Op(OP_EQUALVERIFY, 2, 0);
    b.Op(OP_DROP, 1, 0);
    assert b.names == old(b.names);
    b.EqualSlice(n, 0, [2, 0, 0, 0, 2]);
    CheckTails(b, n, 2);
    EqualNumberByte(b, n, 87, 4);
    CheckMarkers(b, n, 96, 4);
    b.EqualSlice(n, 260, Zeros(4));
  }

  lemma SettlementTransactionStep(p: Prog, n: Name, e0: Env, w: World, e: Env, ok: bool)
    requires Reaches(p, e0, w, e, ok)
    ensures Reaches(SettlementTransactionCalls(p, n), e0, w, e, ok && PlainShape(Lookup(e, n), 2, 4))
  {
    hide Reaches, EqualSliceCalls, SettlementSizeCalls, TailsCalls, MarkersCalls, EqualNumberByteCalls;
    hide SliceIs, PlainShape, TailsMatch, MarkersMatch, NumberByteIs;
    var b := Lookup(e, n);
    var p0, k0 := SettlementSizeCalls(p, n), ok && |b| == 264;
    var p1, k1 := EqualSliceCalls(p0, n, 0, [2, 0, 0, 0, 2]), k0 && SliceIs(w, b, 0, [2, 0, 0, 0, 2]);
    var p2, k2 := TailsCalls(p1, n, 2), k1 && TailsMatch(w, b, 2);
    var p3, k3 := EqualNumberByteCalls(p2, n, 87, 4), k2 && NumberByteIs(w, b, 87, 4);
    var p4, k4 := MarkersCalls(p3, n, 96, 4), k3 && MarkersMatch(w, b, 96, 4);
    SettlementSizeStep(p, n, e0, w, e, ok);
    EqualSliceStep(p0, n, 0, [2, 0, 0, 0, 2], e0, w, e, k0);
    TailsStep(p1, n, 2, e0, w, e, k1);
    EqualNumberByteStep(p2, n, 87, 4, e0, w, e, k2);
    MarkersStep(p3, n, 96, 4, e0, w, e, k3);
    EqualSliceStep(p4, n, 260, Zeros(4), e0, w, e, k4);
    PlainMatches(w, b, 2, 4);
  }
}
