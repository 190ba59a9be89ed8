// How the bridge programs recognise the head they spend: the transaction context, the predecessor and its own
// predecessor by txid, and the states in their cabooses.
module BridgeHead {
  import opened Bytes
  import opened Transactions
  import opened Script
  import opened Building
  import opened Calls
  import opened BuilderClass
  import opened TxContext
  import opened Linearization
  import opened Deposit

  /** The constants a deployment fixes. */
  datatype Terms = Terms(sha: Hash, sponsor: bytes, keys: seq<bytes>, genesisRoot: bytes) {
    predicate Valid() {
      && |sponsor| == 34 && |genesisRoot| == 32 && |keys| == 3
      && |keys[0]| == 32 && |keys[1]| == 32 && |keys[2]| == 32
    }
  }

  // ---------- context ----------

  /** A transaction in bridge form: plain, spending only 34-byte scripts, the last one the sponsor's, run for input
      0. */
  predicate Covenant(c: Context, ins: byte, outs: byte, sponsor: bytes) {
    && PlainContext(c, ins, outs) && |c.spent| == ins && AllNative(c.spent)
    && c.spent[ins - 1].spk == sponsor && c.index == 0
  }

  /** The script and the amount, as bytes, of the first spent output. */
  function SpkOf(c: Context): bytes { if c.spent == [] then [] else c.spent[0].spk }

  function AmountOf(c: Context): bytes { if c.spent == [] then [] else LE(c.spent[0].amount, 8) }

  function Contexted(e: Env, c: Context): Env { Bind(Read(e, c), ProgramSpk, SpkOf(c)) }

  function IndexZeroCalls(p: Prog): Prog { NumEqualVerify(Then(TxCalls(p, CURRENT_INDEX), Number(0))) }

  function MarksCalls(p: Prog, k: nat): Prog {
    if k == 0 then p else EqualSliceCalls(MarksCalls(p, k - 1), SpksOf, 35 * (k - 1), [0x22])
  }

  function CollectionContextCalls(p: Prog, sponsor: bytes): Prog {
    EqualSliceCalls(Then(SliceCalls(MarksCalls(ContextCalls(p, 4, 3), 4), SpksOf, 1, 34), Rename(ProgramSpk)),
      SpksOf, 106, sponsor)
  }

  function SettlementContextCalls(p: Prog, sponsor: bytes): Prog {
    IndexZeroCalls(EqualSliceCalls(Then(SliceCalls(EqualSliceCalls(ContextCalls(p, 2, 4), SpksOf, 0, [0x22]),
      SpksOf, 1, 34), Rename(ProgramSpk)), SpksOf, 35, [0x22] + sponsor))
  }

  method CheckIndexZero(b: Builder)
    requires b.Valid()
    modifies b
    ensures b.Valid() && b.names == old(b.names)
    ensures b.at == old(b.at).(prog := IndexZeroCalls(old(b.at).prog))
  {
    b.Tx(CURRENT_INDEX);
    b.Number(0);
    b.Op(OP_NUMEQUALVERIFY, 2, 0);
    assert b.names == old(b.names);
  }

  method CollectionContext(b: Builder, sponsor: bytes)
    requires b.Valid()
    modifies b
    ensures b.Valid() && b.names == old(b.names) + [PrevoutsOf, AmountsOf, SpksOf, ProgramSpk]
    ensures b.at == old(b.at).(prog := CollectionContextCalls(old(b.at).prog, sponsor))
  {
    CheckContext(b, 4, 3);
    var k := 0;
    while k < 4
      invariant 0 <= k <= 4 && b.Valid() && b.names == old(b.names) + [PrevoutsOf, AmountsOf, SpksOf]
      invariant b.at == old(b.at).(prog := MarksCalls(ContextCalls(old(b.at).prog, 4, 3), k))
    {
      b.EqualSlice(SpksOf, 35 * k, [0x22]);
      k := k + 1;
    }
    b.Slice(SpksOf, 1, 34);
    b.SetName(ProgramSpk);
    assert b.names == old(b.names) + [PrevoutsOf, AmountsOf, SpksOf, ProgramSpk];
    b.EqualSlice(SpksOf, 106, sponsor);
  }

  method SettlementContext(b: Builder, sponsor: bytes)
    requires b.Valid()
    modifies b
    ensures b.Valid() && b.names == old(b.names) + [PrevoutsOf, AmountsOf, SpksOf, ProgramSpk]
    ensures b.at == old(b.at).(prog := SettlementContextCalls(old(b.at).prog, sponsor))
  {
    CheckContext(b, 2, 4);
    b.EqualSlice(SpksOf, 0, [0x22]);
    b.Slice(SpksOf, 1, 34);
    b.SetName(ProgramSpk);
    assert b.names == old(b.names) + [PrevoutsOf, AmountsOf, SpksOf, ProgramSpk];
    b.EqualSlice(SpksOf, 35, [0x22] + sponsor);
    CheckIndexZero(b);
  }

  lemma IndexZeroStep(p: Prog, e0: Env, w: World, e: Env, ok: bool)
    requires Reaches(p, e0, w, e, ok) && WellFormed(w.ctx)
    ensures Reaches(IndexZeroCalls(p), e0, w, e, ok && w.ctx.index == 0)
  {
    hide Reaches, TxCalls, SignedNum, TxField;
    TxFields(w.ctx);
    var i := LE(w.ctx.index, 4);
    TxStep(p, CURRENT_INDEX, e0, w, e, ok);
    NumberStep(TxCalls(p, CURRENT_INDEX), 0, e0, w, Bind(e, Anon, i), ok);
    NumEqualStep(Then(TxCalls(p, CURRENT_INDEX), Number(0)), e0, w, Bind(Bind(e, Anon, i), Anon, SignedNum(0)), ok);
    Pow256Values();
    LEVal(w.ctx.index, 4);
  }

  lemma {:induction false} MarksStep(p: Prog, k: nat, e0: Env, w: World, e: Env, ok: bool)
    requires Reaches(p, e0, w, e, ok) && (ok ==> 35 * k <= |Lookup(e, SpksOf)|)
    ensures Reaches(MarksCalls(p, k), e0, w, e, ok && Marked(Lookup(e, SpksOf), k))
  {
    hide Reaches, EqualSliceCalls;
    if k != 0 {
      MarksStep(p, k - 1, e0, w, e, ok);
      EqualSliceInStep(MarksCalls(p, k - 1), SpksOf, 35 * (k - 1), [0x22], e0, w, e,
                       ok && Marked(Lookup(e, SpksOf), k - 1));
    }
  }

  /** Binding the program script: it is the first spent script as soon as that is 34 bytes long. */
  lemma ProgramStep(p: Prog, e0: Env, w: World, e: Env, ok: bool)
    requires Reaches(p, e0, w, Read(e, w.ctx), ok) && WellFormed(w.ctx)
    requires ok ==> 35 <= |Spks(w.ctx)| && At(Spks(w.ctx), 0, [0x22])
    ensures Reaches(Then(SliceCalls(p, SpksOf, 1, 34), Rename(ProgramSpk)), e0, w, Contexted(e, w.ctx), ok)
  {
    hide Eval, SliceCalls, Spks, Read;
    var r := Read(e, w.ctx);
    LookupRead(e, w.ctx, SpksOf);
    CutStep(p, SpksOf, 1, 34, e0, w, r, ok);
    var v := if ok then Spks(w.ctx)[1..35] else [];
    NameStep(SliceCalls(p, SpksOf, 1, 34), ProgramSpk, e0, w, Bind(r, Anon, v), ok);
    if ok {
      FirstSpk(w.ctx);
    }
  }

  lemma LookupContexted(e: Env, c: Context, n: Name)
    ensures Lookup(Contexted(e, c), n) ==
            if n == ProgramSpk then SpkOf(c) else if n == PrevoutsOf then Prevouts(c)
            else if n == AmountsOf then Amounts(c) else if n == SpksOf then Spks(c) else Lookup(e, n)
  {
    LookupBind(Read(e, c), ProgramSpk, SpkOf(c), n);
    LookupRead(e, c, n);
  }

  lemma LastSpkAt(c: Context, sponsor: bytes)
    requires WellFormed(c) && |sponsor| == 34 && AllNative(c.spent)
    ensures var k := |c.spent| - 1;
            && |Spks(c)| == 35 * k + 35
            && (At(Spks(c), 35 * k + 1, sponsor) <==> c.spent[k].spk == sponsor)
            && (At(Spks(c), 35 * k, [0x22] + sponsor) <==> c.spent[k].spk == sponsor)
  {
    var k := |c.spent| - 1;
    NativeSpkAt(c, k);
    if At(Spks(c), 35 * k, [0x22] + sponsor) {
      assert [0x22] + sponsor == [0x22] + c.spent[k].spk;
      Peel([0x22], sponsor, [0x22], c.spent[k].spk);
    }
  }

  lemma CollectionContextStep(p: Prog, sponsor: bytes, e0: Env, w: World, e: Env, ok: bool)
    requires Reaches(p, e0, w, e, ok) && WellFormed(w.ctx) && |sponsor| == 34
    ensures Reaches(IndexZeroCalls(CollectionContextCalls(p, sponsor)), e0, w, Contexted(e, w.ctx),
                    ok && Covenant(w.ctx, 4, 3, sponsor))
  {
    hide Reaches, ContextCalls, MarksCalls, SliceCalls, EqualSliceCalls, IndexZeroCalls, Spks, Read, Contexted, Lookup;
    hide PlainContext, At, AllNative;
    var c := w.ctx;
    var p1, k1 := ContextCalls(p, 4, 3), ok && PlainContext(c, 4, 3);
    var p2, k2 := MarksCalls(p1, 4), k1 && Marked(Spks(c), 4);
    var p3 := Then(SliceCalls(p2, SpksOf, 1, 34), Rename(ProgramSpk));
    var p4, k4 := EqualSliceCalls(p3, SpksOf, 106, sponsor), k2 && At(Spks(c), 106, sponsor);
    ContextStep(p, 4, 3, e0, w, e, ok);
    PlainCounts(c, 4, 3);
    LookupRead(e, c, SpksOf);
    MarksStep(p1, 4, e0, w, Read(e, c), k1);
    if k2 {
      assert At(Spks(c), 35 * 0, [0x22]);
    }
    ProgramStep(p2, e0, w, e, k2);
    LookupContexted(e, w.ctx, SpksOf);
    EqualSliceInStep(p3, SpksOf, 106, sponsor, e0, w, Contexted(e, w.ctx), k2);
    IndexZeroStep(p4, e0, w, Contexted(e, w.ctx), k4);
    if k1 {
      MarksMean(c.spent);
      assert Spks(c) == Concat(EncodeSpk, c.spent) by { SpksIs(c); }
      if AllNative(c.spent) {
        LastSpkAt(c, sponsor);
      }
    }
  }

  lemma SpksIs(c: Context)
    ensures Spks(c) == Concat(EncodeSpk, c.spent)
  {
  }

  lemma SettlementContextStep(p: Prog, sponsor: bytes, e0: Env, w: World, e: Env, ok: bool)
    requires Reaches(p, e0, w, e, ok) && WellFormed(w.ctx) && |sponsor| == 34
    ensures Reaches(SettlementContextCalls(p, sponsor), e0, w, Contexted(e, w.ctx),
                    ok && Covenant(w.ctx, 2, 4, sponsor))
  {
    hide Reaches, ContextCalls, SliceCalls, EqualSliceCalls, IndexZeroCalls, Spks, Read, Contexted, Lookup;
    hide PlainContext, At, AllNative;
    var c := w.ctx;
    var p1, k1 := ContextCalls(p, 2, 4), ok && PlainContext(c, 2, 4);
    var p2, k2 := EqualSliceCalls(p1, SpksOf, 0, [0x22]), k1 && At(Spks(c), 0, [0x22]);
    var p3 := Then(SliceCalls(p2, SpksOf, 1, 34), Rename(ProgramSpk));
    var p4, k4 := EqualSliceCalls(p3, SpksOf, 35, [0x22] + sponsor), k2 && At(Spks(c), 35, [0x22] + sponsor);
    ContextStep(p, 2, 4, e0, w, e, ok);
    PlainCounts(c, 2, 4);
    LookupRead(e, c, SpksOf);
    EqualSliceInStep(p1, SpksOf, 0, [0x22], e0, w, Read(e, c), k1);
    ProgramStep(p2, e0, w, e, k2);
    LookupContexted(e, w.ctx, SpksOf);
    EqualSliceInStep(p3, SpksOf, 35, [0x22] + sponsor, e0, w, Contexted(e, w.ctx), k2);
    IndexZeroStep(p4, e0, w, Contexted(e, w.ctx), k4);
    if k1 {
      TwoSpksMean(c, sponsor);
    }
  }

  lemma TwoSpksMean(c: Context, sponsor: bytes)
    requires WellFormed(c) && |sponsor| == 34 && |c.spent| == 2 && |Spks(c)| == 70
    ensures At(Spks(c), 0, [0x22]) && At(Spks(c), 35, [0x22] + sponsor) <==>
            AllNative(c.spent) && c.spent[1].spk == sponsor
  {
    MarksMean(c.spent);
    var b := Spks(c);
    if At(b, 0, [0x22]) && At(b, 35, [0x22] + sponsor) {
      assert b[35..70][..1] == [0x22];
      assert b[35..36] == b[35..70][..1];
      forall k | 0 <= k < 2 ensures At(b, 35 * k, [0x22]) {
        assert k == 0 || k == 1;
      }
      assert Marked(b, 2);
      LastSpkAt(c, sponsor);
    }
    if AllNative(c.spent) && c.spent[1].spk == sponsor {
      LastSpkAt(c, sponsor);
      NativeSpkAt(c, 0);
    }
  }

  // ---------- predecessor and its predecessor ----------

  /** What the witness claims, beside the transaction itself. */
  datatype Claim = Claim(parent: bytes, ancestor: bytes, oldState: bytes, newState: bytes, bridgeId: bytes,
                         values: bytes)

  predicate Shows(e: Env, c: Context, x: Claim) {
    && Lookup(e, Parent) == x.parent && Lookup(e, Ancestor) == x.ancestor && Lookup(e, OldState) == x.oldState
    && Lookup(e, NewState) == x.newState && Lookup(e, BridgeId) == x.bridgeId && Lookup(e, PublicValues) == x.values
    && Lookup(e, PrevoutsOf) == Prevouts(c) && Lookup(e, AmountsOf) == Amounts(c)
    && Lookup(e, SpksOf) == Spks(c) && Lookup(e, ProgramSpk) == SpkOf(c)
  }

  predicate Scratch(n: Name) {
    n in {Anon, NewCaboose, OldCaboose, ExpectedOutputs, DepositLeafBytes, OldRoot}
  }

  lemma ShowsBind(e: Env, c: Context, x: Claim, n: Name, v: bytes)
    requires Shows(e, c, x) && Scratch(n)
    ensures Shows(Bind(e, n, v), c, x)
  {
  }

  /** The predecessor's first input spends output 0 of the ancestor. */
  predicate LinksTo(sha: Hash, parent: bytes, ancestor: bytes) {
    At(parent, 5, Hash256(sha, ancestor)) && At(parent, 37, Zeros(4))
  }

  function AncestorTxidCalls(p: Prog): Prog {
    EqualSliceCalls(EqualVerify(SliceCalls(HashCalls(Then(p, Get(Ancestor)), OP_HASH256), Parent, 5, 32)),
      Parent, 37, Zeros(4))
  }

  method CheckAncestorTxid(b: Builder)
    requires b.Valid() && Parent in b.names && Ancestor in b.names
    modifies b
    ensures b.Valid() && b.names == old(b.names)
    ensures b.at == old(b.at).(prog := AncestorTxidCalls(old(b.at).prog))
  {
    b.Get(Ancestor);
    b.Op(OP_HASH256, 1, 1);
    b.Slice(Parent, 5, 32);
    b.Op(OP_EQUALVERIFY, 2, 0);
    assert b.names == old(b.names);
    b.EqualSlice(Parent, 37, Zeros(4));
  }

  lemma AncestorTxidStep(p: Prog, e0: Env, w: World, e: Env, ok: bool)
    requires Reaches(p, e0, w, e, ok) && (ok ==> |Lookup(e, Parent)| >= 41)
    ensures Reaches(AncestorTxidCalls(p), e0, w, e, ok && LinksTo(w.sha, Lookup(e, Parent), Lookup(e, Ancestor)))
  {
    hide Reaches, SliceCalls, HashCalls, EqualSliceCalls, Lookup;
    var h, parent := Hash256(w.sha, Lookup(e, Ancestor)), Lookup(e, Parent);
    var p1, p2 := Then(p, Get(Ancestor)), HashCalls(Then(p, Get(Ancestor)), OP_HASH256);
    var x := if ok then parent[5..37] else [];
    GetStep(p, Ancestor, e0, w, e, ok);
    HashStep(p1, OP_HASH256, e0, w, Bind(e, Anon, Lookup(e, Ancestor)), ok);
    LookupBind(e, Anon, h, Parent);
    CutStep(p2, Parent, 5, 32, e0, w, Bind(e, Anon, h), ok);
    EqualStep(SliceCalls(p2, Parent, 5, 32), e0, w, Bind(Bind(e, Anon, h), Anon, x), ok);
    EqualSliceInStep(EqualVerify(SliceCalls(p2, Parent, 5, 32)), Parent, 37, Zeros(4), e0, w, e, ok && h == x);
  }

  /** The ancestor is of a recognised shape and pays the program in output 0. */
  predicate AncestorPays(a: bytes, spk: bytes) {
    if |a| == 303 then PlainShape(a, 4, 3) && At(a, 179, spk)
    else if |a| == 264 then PlainShape(a, 2, 4) && At(a, 97, spk)
    else PlainShape(a, 1, 2) && At(a, 56, spk)
  }

  function AncestorSpkCalls(p: Prog, offset: nat): Prog {
    EqualVerify(Then(SliceCalls(p, Ancestor, offset, 34), Get(ProgramSpk)))
  }

  function OtherAncestorCalls(p: Prog): Prog {
    Then(IsSizeCalls(p, Ancestor, 264), Branch(AncestorSpkCalls(SettlementTransactionCalls(Nil, Ancestor), 97),
                                               AncestorSpkCalls(OneInputTwoOutputCalls(Nil, Ancestor), 56)))
  }

  function TransitionAncestorCalls(p: Prog): Prog {
    Then(IsSizeCalls(AncestorTxidCalls(p), Ancestor, 303),
         Branch(AncestorSpkCalls(CollectionTransactionCalls(Nil, Ancestor), 179), OtherAncestorCalls(Nil)))
  }

  method CheckAncestorSpk(b: Builder, offset: nat)
    requires b.Valid() && Ancestor in b.names && ProgramSpk in b.names
    modifies b
    ensures b.Valid() && b.names == old(b.names)
    ensures b.at == old(b.at).(prog := AncestorSpkCalls(old(b.at).prog, offset))
  {
    b.Slice(Ancestor, offset, 34);
    b.Get(ProgramSpk);
    b.Op(OP_EQUALVERIFY, 2, 0);
    assert b.names == old(b.names);
  }

  method CheckOtherAncestor(b: Builder)
    requires b.Valid() && Ancestor in b.names && ProgramSpk in b.names
    modifies b
    ensures b.Valid() && b.names == old(b.names)
    ensures b.at == old(b.at).(prog := OtherAncestorCalls(old(b.at).prog))
  {
    IsSize(b, Ancestor, 264);
    var before := b.BeginBranch();
    assert before == old(b.names);
    CheckSettlementTransaction(b, Ancestor);
    CheckAncestorSpk(b, 97);
    var after := b.ElseBranch(before);
    CheckOneInputTwoOutput(b, Ancestor);
    CheckAncestorSpk(b, 56);
    b.EndBranch(after);
  }

  method AuthenticateTransitionAncestor(b: Builder)
    requires b.Valid() && Parent in b.names && Ancestor in b.names && ProgramSpk in b.names
    modifies b
    ensures b.Valid() && b.names == old(b.names)
    ensures b.at == old(b.at).(prog := TransitionAncestorCalls(old(b.at).prog))
  {
    CheckAncestorTxid(b);
    IsSize(b, Ancestor, 303);
    var before := b.BeginBranch();
    assert before == old(b.names);
    CheckCollectionTransaction(b, Ancestor);
    CheckAncestorSpk(b, 179);
    var after := b.ElseBranch(before);
    CheckOtherAncestor(b);
    b.EndBranch(after);
  }

  lemma AncestorSpkStep(p: Prog, offset: nat, e0: Env, w: World, e: Env, ok: bool)
    requires Reaches(p, e0, w, e, ok) && |Lookup(e, ProgramSpk)| == 34
    requires ok ==> offset + 34 <= |Lookup(e, Ancestor)|
    ensures Reaches(AncestorSpkCalls(p, offset), e0, w, e, ok && At(Lookup(e, Ancestor), offset, Lookup(e, ProgramSpk)))
  {
    hide Reaches, At;
    CutEqualStep(p, Ancestor, offset, 34, ProgramSpk, e0, w, e, ok);
  }

  lemma ShapeLength(b: bytes, ins: byte, outs: byte)
    requires PlainShape(b, ins, outs)
    ensures |b| == PlainSize(ins, outs)
  {
  }

  lemma OtherAncestorStep(e: Env, w: World)
    requires |Lookup(e, ProgramSpk)| == 34
    ensures var a, spk := Lookup(e, Ancestor), Lookup(e, ProgramSpk);
            Reaches(OtherAncestorCalls(Nil), e, w, e,
                    if |a| == 264 then PlainShape(a, 2, 4) && At(a, 97, spk) else PlainShape(a, 1, 2) && At(a, 56, spk))
  {
    hide Reaches, IsSizeCalls, SettlementTransactionCalls, OneInputTwoOutputCalls, AncestorSpkCalls, PlainShape, At;
    hide Lookup;
    var a, spk := Lookup(e, Ancestor), Lookup(e, ProgramSpk);
    NilStep(e, w);
    IsSizeStep(Nil, Ancestor, 264, e, w, e, true);
    SettlementTransactionStep(Nil, Ancestor, e, w, e, true);
    OneInputTwoOutputStep(Nil, Ancestor, e, w, e, true);
    if PlainShape(a, 2, 4) {
      ShapeLength(a, 2, 4);
    }
    if PlainShape(a, 1, 2) {
      ShapeLength(a, 1, 2);
    }
    AncestorSpkStep(SettlementTransactionCalls(Nil, Ancestor), 97, e, w, e, PlainShape(a, 2, 4));
    AncestorSpkStep(OneInputTwoOutputCalls(Nil, Ancestor), 56, e, w, e, PlainShape(a, 1, 2));
    BranchStep(IsSizeCalls(Nil, Ancestor, 264), AncestorSpkCalls(SettlementTransactionCalls(Nil, Ancestor), 97),
               AncestorSpkCalls(OneInputTwoOutputCalls(Nil, Ancestor), 56), e, w, e, true, |a| == 264, e,
               PlainShape(a, 2, 4) && At(a, 97, spk), PlainShape(a, 1, 2) && At(a, 56, spk));
  }

  lemma TransitionAncestorStep(p: Prog, e0: Env, w: World, e: Env, ok: bool)
    requires Reaches(p, e0, w, e, ok) && (ok ==> |Lookup(e, Parent)| >= 41 && |Lookup(e, ProgramSpk)| == 34)
    ensures Reaches(TransitionAncestorCalls(p), e0, w, e,
                    && ok && LinksTo(w.sha, Lookup(e, Parent), Lookup(e, Ancestor))
                    && AncestorPays(Lookup(e, Ancestor), Lookup(e, ProgramSpk)))
  {
    hide Reaches, IsSizeCalls, CollectionTransactionCalls, OtherAncestorCalls, AncestorSpkCalls, AncestorTxidCalls;
    hide PlainShape, At, LinksTo, Lookup;
    var a, spk := Lookup(e, Ancestor), Lookup(e, ProgramSpk);
    var p1, k1 := AncestorTxidCalls(p), ok && LinksTo(w.sha, Lookup(e, Parent), a);
    var no := if |a| == 264 then PlainShape(a, 2, 4) && At(a, 97, spk) else PlainShape(a, 1, 2) && At(a, 56, spk);
    AncestorTxidStep(p, e0, w, e, ok);
    IsSizeStep(p1, Ancestor, 303, e0, w, e, k1);
    if k1 {
      NilStep(e, w);
      CollectionTransactionStep(Nil, Ancestor, e, w, e, true);
      if PlainShape(a, 4, 3) {
        ShapeLength(a, 4, 3);
      }
      AncestorSpkStep(CollectionTransactionCalls(Nil, Ancestor), 179, e, w, e, PlainShape(a, 4, 3));
      OtherAncestorStep(e, w);
    }
    BranchStep(IsSizeCalls(p1, Ancestor, 303), AncestorSpkCalls(CollectionTransactionCalls(Nil, Ancestor), 179),
               OtherAncestorCalls(Nil), e0, w, e, k1, |a| == 303, e, PlainShape(a, 4, 3) && At(a, 179, spk), no);
  }

  // ---------- the two kinds of predecessor ----------

  function GenesisParentCalls(p: Prog, t: Terms): Prog {
    var p1 := AncestorTxidCalls(ParentOutputCalls(OneInputTwoOutputCalls(p, Parent), 47, 56, 90, 99));
    var p2 := EqualSliceCalls(OneInputTwoOutputCalls(p1, Ancestor), Ancestor, 56, t.sponsor);
    var p3 := IdentityCalls(EqualSliceCalls(StateMarkCalls(p2, 41, GENESIS_MARK), OldState, 9, t.genesisRoot));
    Then(SliceCalls(p3, OldState, 9, 32), Rename(OldRoot))
  }

  function ContinuedOutputCalls(p: Prog, t: Terms): Prog {
    Then(IsSizeCalls(p, Parent, 303),
         Branch(EqualSliceCalls(CollectionHeadCalls(Nil), Parent, 222, t.sponsor),
                EqualSliceCalls(SettlementHeadCalls(Nil), Parent, 183, t.sponsor)))
  }

  function ContinuationCalls(p: Prog, t: Terms): Prog {
    Then(SliceCalls(EqualVerify(Then(SliceCalls(StateMarkCalls(TransitionAncestorCalls(ContinuedOutputCalls(p, t)),
      73, ACTIVE_MARK), OldState, 9, 32), Get(BridgeId))), OldState, 41, 32), Rename(OldRoot))
  }

  function NewStateCalls(p: Prog): Prog {
    EqualVerify(Then(SliceCalls(EqualSliceCalls(RequireSizeCalls(p, NewState, 73), NewState, 0, ACTIVE_MARK),
      NewState, 9, 32), Get(BridgeId)))
  }

  function ParentCalls(p: Prog, t: Terms): Prog {
    NewStateCalls(Then(IsSizeCalls(EqualSliceCalls(ParentTxidCalls(p), PrevoutsOf, 32, Zeros(4)), Parent, 137),
                       Branch(GenesisParentCalls(Nil, t), ContinuationCalls(Nil, t))))
  }

  method CheckGenesisParent(b: Builder, t: Terms)
    requires b.Valid()
    requires {Parent, Ancestor, OldState, BridgeId, AmountsOf, ProgramSpk} <= (set n | n in b.names)
    modifies b
    ensures b.Valid() && b.names == old(b.names) + [OldCaboose, OldRoot]
    ensures b.at == old(b.at).(prog := GenesisParentCalls(old(b.at).prog, t))
  {
    hide OneInputTwoOutputCalls, ParentOutputCalls, AncestorTxidCalls, EqualSliceCalls, RequireSizeCalls, IdentityCalls;
    hide SliceCalls, TransitionAncestorCalls, ContinuedOutputCalls;
    CheckOneInputTwoOutput(b, Parent);
    CheckParentOutput(b, 47, 56, 90, 99);
    CheckAncestorTxid(b);
    CheckOneInputTwoOutput(b, Ancestor);
    b.EqualSlice(Ancestor, 56, t.sponsor);
    b.RequireSize(OldState, 41);
    b.EqualSlice(OldState, 0, GENESIS_MARK);
    b.EqualSlice(OldState, 9, t.genesisRoot);
    CheckIdentity(b);
    ReadOldRoot(b, 9);
  }

  method ReadOldRoot(b: Builder, offset: nat)
    requires b.Valid() && OldState in b.names
    modifies b
    ensures b.Valid() && b.names == old(b.names) + [OldRoot]
    ensures b.at == old(b.at).(prog := Then(SliceCalls(old(b.at).prog, OldState, offset, 32), Rename(OldRoot)))
  {
    b.Slice(OldState, offset, 32);
    b.SetName(OldRoot);
  }

  method CheckContinuedOutput(b: Builder, t: Terms)
    requires b.Valid() && {Parent, OldState, ProgramSpk, AmountsOf} <= (set n | n in b.names)
    modifies b
    ensures b.Valid() && b.names == old(b.names) + [OldCaboose]
    ensures b.at == old(b.at).(prog := ContinuedOutputCalls(old(b.at).prog, t))
  {
    IsSize(b, Parent, 303);
    var before := b.BeginBranch();
    assert before == old(b.names);
    CheckCollectionTransaction(b, Parent);
    CheckParentOutput(b, 170, 179, 256, 265);
    b.EqualSlice(Parent, 222, t.sponsor);
    var after := b.ElseBranch(before);
    CheckSettlementTransaction(b, Parent);
    CheckParentOutput(b, 88, 97, 217, 226);
    b.EqualSlice(Parent, 183, t.sponsor);
    b.EndBranch(after);
  }

  method CheckContinuation(b: Builder, t: Terms)
    requires b.Valid()
    requires {Parent, Ancestor, OldState, BridgeId, AmountsOf, ProgramSpk} <= (set n | n in b.names)
    modifies b
    ensures b.Valid() && b.names == old(b.names) + [OldCaboose, OldRoot]
    ensures b.at == old(b.at).(prog := ContinuationCalls(old(b.at).prog, t))
  {
    hide OneInputTwoOutputCalls, ParentOutputCalls, AncestorTxidCalls, EqualSliceCalls, RequireSizeCalls, IdentityCalls;
    hide SliceCalls, TransitionAncestorCalls, ContinuedOutputCalls;
    CheckContinuedOutput(b, t);
    AuthenticateTransitionAncestor(b);
    b.RequireSize(OldState, 73);
    b.EqualSlice(OldState, 0, ACTIVE_MARK);
    CheckSliceIs(b, OldState, 9, 32, BridgeId);
    ReadOldRoot(b, 41);
  }

  method CheckSliceIs(b: Builder, n: Name, start: nat, length: nat, m: Name)
    requires b.Valid() && n in b.names && m in b.names
    modifies b
    ensures b.Valid() && b.names == old(b.names)
    ensures b.at == old(b.at).(prog := EqualVerify(Then(SliceCalls(old(b.at).prog, n, start, length), Get(m))))
  {
    b.Slice(n, start, length);
    b.Get(m);
    b.Op(OP_EQUALVERIFY, 2, 0);
    assert b.names == old(b.names);
  }

  method CheckNewState(b: Builder)
    requires b.Valid() && NewState in b.names && BridgeId in b.names
    modifies b
    ensures b.Valid() && b.names == old(b.names)
    ensures b.at == old(b.at).(prog := NewStateCalls(old(b.at).prog))
  {
    b.RequireSize(NewState, 73);
    b.EqualSlice(NewState, 0, ACTIVE_MARK);
    b.Slice(NewState, 9, 32);
    b.Get(BridgeId);
    b.Op(OP_EQUALVERIFY, 2, 0);
    assert b.names == old(b.names);
  }

  method AuthenticateParent(b: Builder, t: Terms)
    requires b.Valid()
    requires {Parent, Ancestor, OldState, NewState, BridgeId, PrevoutsOf, AmountsOf,
              ProgramSpk} <= (set n | n in b.names)
    modifies b
    ensures b.Valid() && b.names == old(b.names) + [OldCaboose, OldRoot]
    ensures b.at == old(b.at).(prog := ParentCalls(old(b.at).prog, t))
  {
    CheckParentTxid(b);
    b.EqualSlice(PrevoutsOf, 32, Zeros(4));
    IsSize(b, Parent, 137);
    var before := b.BeginBranch();
    assert before == old(b.names);
    CheckGenesisParent(b, t);
    var after := b.ElseBranch(before);
    CheckContinuation(b, t);
    b.EndBranch(after);
    CheckNewState(b);
  }

  // ---------- what they accept ----------

  function HeadIn(c: Context, x: Claim): Head { Head(x.parent, x.oldState, x.bridgeId, SpkOf(c), AmountOf(c)) }

  /** The old root stands at a place that depends on the kind of old state. */
  function RootIn(x: Claim): bytes {
    var o := if |x.parent| == 137 then 9 else 41;
    if o + 32 <= |x.oldState| then x.oldState[o..o + 32] else []
  }

  /** The genesis of the bridge: it pays the program, commits to the genesis root, names the bridge by its own
      txid, and was funded by the sponsor. */
  predicate GenesisParent(t: Terms, c: Context, x: Claim) {
    && Pays(t.sha, HeadIn(c, x), 1, 2) && LinksTo(t.sha, x.parent, x.ancestor)
    && PlainShape(x.ancestor, 1, 2) && At(x.ancestor, 56, t.sponsor)
    && |x.oldState| == 41 && At(x.oldState, 0, GENESIS_MARK) && At(x.oldState, 9, t.genesisRoot)
    && Hash256(t.sha, x.parent) == x.bridgeId
  }

  predicate ContinuedOutput(t: Terms, c: Context, x: Claim) {
    if |x.parent| == 303 then Pays(t.sha, HeadIn(c, x), 4, 3) && At(x.parent, 222, t.sponsor)
    else Pays(t.sha, HeadIn(c, x), 2, 4) && At(x.parent, 183, t.sponsor)
  }

  /** An earlier collection or settlement, which itself spent the program. */
  predicate ContinuedParent(t: Terms, c: Context, x: Claim) {
    && ContinuedOutput(t, c, x) && LinksTo(t.sha, x.parent, x.ancestor) && AncestorPays(x.ancestor, SpkOf(c))
    && |x.oldState| == 73 && At(x.oldState, 0, ACTIVE_MARK) && At(x.oldState, 9, x.bridgeId)
  }

  predicate NewStateActive(x: Claim) {
    |x.newState| == 73 && At(x.newState, 0, ACTIVE_MARK) && At(x.newState, 9, x.bridgeId)
  }

  predicate KnownParent(t: Terms, c: Context, x: Claim) {
    if |x.parent| == 137 then GenesisParent(t, c, x) else ContinuedParent(t, c, x)
  }

  /** What the head checks rely on once the context holds. */
  predicate Ready(e: Env, c: Context, x: Claim) {
    && Shows(e, c, x) && |SpkOf(c)| == 34 && |x.bridgeId| == 32
    && |Amounts(c)| >= 8 && Amounts(c)[0..8] == AmountOf(c) && |Prevouts(c)| >= 36
  }

  lemma ReadyHead(e: Env, c: Context, x: Claim)
    requires Ready(e, c, x)
    ensures HeadReady(e) && |Lookup(e, AmountsOf)| >= 8 && HeadOf(e) == HeadIn(c, x)
    ensures Lookup(e, Parent) == x.parent && Lookup(e, Ancestor) == x.ancestor && Lookup(e, OldState) == x.oldState
    ensures Lookup(e, NewState) == x.newState && Lookup(e, BridgeId) == x.bridgeId
    ensures Lookup(e, ProgramSpk) == SpkOf(c) && Lookup(e, PrevoutsOf) == Prevouts(c)
    ensures |SpkOf(c)| == 34 && |x.bridgeId| == 32 && |Prevouts(c)| >= 36
  {
    hide Prevouts, Amounts, Spks, Lookup, SpkOf, AmountOf;
  }

  lemma ReadyBind(e: Env, c: Context, x: Claim, n: Name, v: bytes)
    requires Ready(e, c, x) && Scratch(n)
    ensures Ready(Bind(e, n, v), c, x)
  {
    hide Shows, SpkOf, AmountOf, Prevouts, Amounts;
    ShowsBind(e, c, x, n, v);
  }

  lemma ReadyCaboose(e: Env, w: World, x: Claim)
    requires Ready(e, w.ctx, x)
    ensures Ready(WithCaboose(e, w), w.ctx, x)
  {
    hide Ready;
    ReadyBind(e, w.ctx, x, OldCaboose, CabooseSpk(w.sha, Lookup(e, OldState)));
  }

  lemma PaysLength(sha: Hash, h: Head, ins: byte, outs: byte)
    requires Pays(sha, h, ins, outs)
    ensures |h.parent| == PlainSize(ins, outs)
  {
  }

  lemma OldRootStep(p: Prog, offset: nat, e0: Env, w: World, e: Env, ok: bool, v: bytes)
    requires Reaches(p, e0, w, e, ok)
    requires ok ==> offset + 32 <= |Lookup(e, OldState)| && v == Lookup(e, OldState)[offset..offset + 32]
    ensures Reaches(Then(SliceCalls(p, OldState, offset, 32), Rename(OldRoot)), e0, w, Bind(e, OldRoot, v), ok)
  {
    hide Eval, SliceCalls;
    CutStep(p, OldState, offset, 32, e0, w, e, ok);
    NameStep(SliceCalls(p, OldState, offset, 32), OldRoot, e0, w,
             Bind(e, Anon, if ok then Lookup(e, OldState)[offset..offset + 32] else []), ok);
  }

  function Rooted(e: Env, w: World, x: Claim): Env { Bind(WithCaboose(e, w), OldRoot, RootIn(x)) }

  lemma GenesisOutputStep(t: Terms, e: Env, w: World, x: Claim)
    requires Ready(e, w.ctx, x) && t.sha == w.sha
    ensures Reaches(AncestorTxidCalls(ParentOutputCalls(OneInputTwoOutputCalls(Nil, Parent), 47, 56, 90, 99)), e, w,
                    WithCaboose(e, w), Pays(t.sha, HeadIn(w.ctx, x), 1, 2) && LinksTo(t.sha, x.parent, x.ancestor))
  {
    hide Reaches, OneInputTwoOutputCalls, ParentOutputCalls, AncestorTxidCalls;
    hide Ready, PlainShape, LinksTo, Pays, WithCaboose, Lookup, SpkOf, AmountOf;
    ReadyHead(e, w.ctx, x);
    ReadyCaboose(e, w, x);
    ReadyHead(WithCaboose(e, w), w.ctx, x);
    var p0 := OneInputTwoOutputCalls(Nil, Parent);
    var h := HeadIn(w.ctx, x);
    NilStep(e, w);
    OneInputTwoOutputStep(Nil, Parent, e, w, e, true);
    HeadOutputStep(p0, 1, 2, e, w, e, true);
    if Pays(t.sha, h, 1, 2) {
      PaysLength(t.sha, h, 1, 2);
    }
    AncestorTxidStep(ParentOutputCalls(p0, 47, 56, 90, 99), e, w, WithCaboose(e, w), Pays(t.sha, h, 1, 2));
  }

  lemma GenesisParentStep(t: Terms, e: Env, w: World, x: Claim)
    requires t.Valid() && t.sha == w.sha && Ready(e, w.ctx, x) && |x.parent| == 137
    ensures Reaches(GenesisParentCalls(Nil, t), e, w, Rooted(e, w, x), GenesisParent(t, w.ctx, x))
  {
    hide Reaches, OneInputTwoOutputCalls, ParentOutputCalls, AncestorTxidCalls, EqualSliceCalls, StateMarkCalls;
    hide IdentityCalls, SliceCalls, Ready, PlainShape, At, LinksTo, Pays, WithCaboose, Hash256, Lookup, HeadIn;
    ReadyCaboose(e, w, x);
    var h, e1 := HeadIn(w.ctx, x), WithCaboose(e, w);
    ReadyHead(e1, w.ctx, x);
    GenesisOutputStep(t, e, w, x);
    var p2 := AncestorTxidCalls(ParentOutputCalls(OneInputTwoOutputCalls(Nil, Parent), 47, 56, 90, 99));
    var k2 := Pays(t.sha, h, 1, 2) && LinksTo(t.sha, x.parent, x.ancestor);
    var p3, k3 := OneInputTwoOutputCalls(p2, Ancestor), k2 && PlainShape(x.ancestor, 1, 2);
    var p4, k4 := EqualSliceCalls(p3, Ancestor, 56, t.sponsor), k3 && At(x.ancestor, 56, t.sponsor);
    var p5, k5 := StateMarkCalls(p4, 41, GENESIS_MARK), k4 && |x.oldState| == 41 && At(x.oldState, 0, GENESIS_MARK);
    var p6, k6 := EqualSliceCalls(p5, OldState, 9, t.genesisRoot), k5 && At(x.oldState, 9, t.genesisRoot);
    var p7, k7 := IdentityCalls(p6), k6 && Hash256(w.sha, x.parent) == x.bridgeId;
    OneInputTwoOutputStep(p2, Ancestor, e, w, e1, k2);
    if PlainShape(x.ancestor, 1, 2) {
      ShapeLength(x.ancestor, 1, 2);
    }
    EqualSliceInStep(p3, Ancestor, 56, t.sponsor, e, w, e1, k3);
    StateMarkStep(p4, 41, GENESIS_MARK, e, w, e1, k4);
    EqualSliceInStep(p5, OldState, 9, t.genesisRoot, e, w, e1, k5);
    IdentityStep(p6, e, w, e1, k6);
    OldRootStep(p7, 9, e, w, e1, k7, RootIn(x));
  }

  lemma ContinuedOutputStep(t: Terms, e: Env, w: World, x: Claim)
    requires t.Valid() && t.sha == w.sha && Ready(e, w.ctx, x)
    ensures Reaches(ContinuedOutputCalls(Nil, t), e, w, WithCaboose(e, w), ContinuedOutput(t, w.ctx, x))
  {
    hide Reaches, CollectionHeadCalls, SettlementHeadCalls, EqualSliceCalls, IsSizeCalls;
    hide Ready, At, Pays, WithCaboose, Lookup, SpkOf, AmountOf, HeadReady;
    ReadyHead(e, w.ctx, x);
    ReadyCaboose(e, w, x);
    var h, e1 := HeadIn(w.ctx, x), WithCaboose(e, w);
    ReadyHead(e1, w.ctx, x);
    var c, d := Pays(w.sha, h, 4, 3), Pays(w.sha, h, 2, 4);
    NilStep(e, w);
    IsSizeStep(Nil, Parent, 303, e, w, e, true);
    CollectionHeadStep(Nil, e, w, e, true);
    SettlementHeadStep(Nil, e, w, e, true);
    if c {
      PaysLength(w.sha, h, 4, 3);
    }
    if d {
      PaysLength(w.sha, h, 2, 4);
    }
    EqualSliceInStep(CollectionHeadCalls(Nil), Parent, 222, t.sponsor, e, w, e1, c);
    EqualSliceInStep(SettlementHeadCalls(Nil), Parent, 183, t.sponsor, e, w, e1, d);
    BranchStep(IsSizeCalls(Nil, Parent, 303), EqualSliceCalls(CollectionHeadCalls(Nil), Parent, 222, t.sponsor),
               EqualSliceCalls(SettlementHeadCalls(Nil), Parent, 183, t.sponsor), e, w, e, true, |x.parent| == 303, e1,
               c && At(x.parent, 222, t.sponsor), d && At(x.parent, 183, t.sponsor));
  }

  lemma ContinuedLength(t: Terms, c: Context, x: Claim)
    requires ContinuedOutput(t, c, x)
    ensures |x.parent| == 303 || |x.parent| == 264
  {
    hide ParentPays, SpkOf, AmountOf;
    if |x.parent| == 303 {
      PaysLength(t.sha, HeadIn(c, x), 4, 3);
    } else {
      PaysLength(t.sha, HeadIn(c, x), 2, 4);
    }
  }

  lemma ContinuationStep(t: Terms, e: Env, w: World, x: Claim)
    requires t.Valid() && t.sha == w.sha && Ready(e, w.ctx, x) && |x.parent| != 137
    ensures Reaches(ContinuationCalls(Nil, t), e, w, Rooted(e, w, x), ContinuedParent(t, w.ctx, x))
  {
    hide Reaches, ContinuedOutputCalls, TransitionAncestorCalls, StateMarkCalls, SliceCalls;
    hide Ready, At, WithCaboose, Lookup, LinksTo, AncestorPays, SpkOf, ContinuedOutput;
    ReadyCaboose(e, w, x);
    var c, e1 := w.ctx, WithCaboose(e, w);
    ReadyHead(e1, c, x);
    ContinuedOutputStep(t, e, w, x);
    var p1, k1 := ContinuedOutputCalls(Nil, t), ContinuedOutput(t, c, x);
    if k1 {
      ContinuedLength(t, c, x);
    }
    var p2, k2 := TransitionAncestorCalls(p1),
        k1 && LinksTo(w.sha, x.parent, x.ancestor) && AncestorPays(x.ancestor, SpkOf(c));
    var p3, k3 := StateMarkCalls(p2, 73, ACTIVE_MARK), k2 && |x.oldState| == 73 && At(x.oldState, 0, ACTIVE_MARK);
    var p4, k4 := EqualVerify(Then(SliceCalls(p3, OldState, 9, 32), Get(BridgeId))),
        k3 && At(x.oldState, 9, x.bridgeId);
    TransitionAncestorStep(p1, e, w, e1, k1);
    StateMarkStep(p2, 73, ACTIVE_MARK, e, w, e1, k2);
    CutEqualStep(p3, OldState, 9, 32, BridgeId, e, w, e1, k3);
    OldRootStep(p4, 41, e, w, e1, k4, RootIn(x));
  }

  lemma NewStateStep(p: Prog, e0: Env, w: World, e: Env, ok: bool)
    requires Reaches(p, e0, w, e, ok) && (ok ==> |Lookup(e, BridgeId)| == 32)
    ensures var s := Lookup(e, NewState);
            Reaches(NewStateCalls(p), e0, w, e,
                    ok && |s| == 73 && At(s, 0, ACTIVE_MARK) && At(s, 9, Lookup(e, BridgeId)))
  {
    hide Reaches, RequireSizeCalls, EqualSliceCalls, SliceCalls, At, Lookup;
    var s := Lookup(e, NewState);
    var p1, k1 := RequireSizeCalls(p, NewState, 73), ok && |s| == 73;
    var p2, k2 := EqualSliceCalls(p1, NewState, 0, ACTIVE_MARK), k1 && At(s, 0, ACTIVE_MARK);
    RequireSizeStep(p, NewState, 73, e0, w, e, ok);
    EqualSliceInStep(p1, NewState, 0, ACTIVE_MARK, e0, w, e, k1);
    CutEqualStep(p2, NewState, 9, 32, BridgeId, e0, w, e, k2);
  }

  /** A claim about the head that the programs accept. */
  predicate ParentAccepted(t: Terms, c: Context, x: Claim) {
    At(Prevouts(c), 0, Hash256(t.sha, x.parent)) && KnownParent(t, c, x) && NewStateActive(x)
  }

  lemma ParentKindStep(p: Prog, t: Terms, e0: Env, w: World, e: Env, ok: bool, x: Claim)
    requires Reaches(p, e0, w, e, ok) && t.Valid() && t.sha == w.sha && Lookup(e, Parent) == x.parent
    requires ok ==> Ready(e, w.ctx, x)
    ensures Reaches(Then(IsSizeCalls(p, Parent, 137), Branch(GenesisParentCalls(Nil, t), ContinuationCalls(Nil, t))),
                    e0, w, Rooted(e, w, x), ok && KnownParent(t, w.ctx, x))
  {
    hide Reaches, IsSizeCalls, GenesisParentCalls, ContinuationCalls, Ready, Lookup, GenesisParent, ContinuedParent;
    hide Rooted;
    var is137 := |x.parent| == 137;
    IsSizeStep(p, Parent, 137, e0, w, e, ok);
    if ok {
      if is137 {
        GenesisParentStep(t, e, w, x);
      } else {
        ContinuationStep(t, e, w, x);
      }
    }
    BranchStep(IsSizeCalls(p, Parent, 137), GenesisParentCalls(Nil, t), ContinuationCalls(Nil, t), e0, w, e, ok, is137,
               Rooted(e, w, x), GenesisParent(t, w.ctx, x), ContinuedParent(t, w.ctx, x));
  }

  /** The head authentication accepts exactly the claims `ParentAccepted` describes, and binds the old root. */
  lemma ParentStep(p: Prog, t: Terms, e0: Env, w: World, e: Env, ok: bool, x: Claim)
    requires Reaches(p, e0, w, e, ok) && t.Valid() && t.sha == w.sha && Shows(e, w.ctx, x)
    requires ok ==> Ready(e, w.ctx, x) && At(Prevouts(w.ctx), 32, Zeros(4))
    ensures Reaches(ParentCalls(p, t), e0, w, Rooted(e, w, x), ok && ParentAccepted(t, w.ctx, x))
  {
    hide Reaches, ParentTxidCalls, EqualSliceCalls, IsSizeCalls, GenesisParentCalls, ContinuationCalls, NewStateCalls;
    hide Ready, At, Lookup, KnownParent, Prevouts, Shows, Rooted;
    var c := w.ctx;
    ShownParent(e, c, x);
    if ok {
      ReadyHead(e, c, x);
    }
    var p1, k1 := ParentTxidCalls(p), ok && At(Prevouts(c), 0, Hash256(w.sha, x.parent));
    var p2 := EqualSliceCalls(p1, PrevoutsOf, 32, Zeros(4));
    ParentTxidStep(p, e0, w, e, ok);
    EqualSliceInStep(p1, PrevoutsOf, 32, Zeros(4), e0, w, e, k1);
    ParentKindStep(p2, t, e0, w, e, k1, x);
    RootedShows(e, w, x);
    NewStateStep(Then(IsSizeCalls(p2, Parent, 137), Branch(GenesisParentCalls(Nil, t), ContinuationCalls(Nil, t))),
                 e0, w,
                 Rooted(e, w, x), k1 && KnownParent(t, c, x));
  }

  lemma ShownParent(e: Env, c: Context, x: Claim)
    requires Shows(e, c, x)
    ensures Lookup(e, Parent) == x.parent && Lookup(e, PrevoutsOf) == Prevouts(c)
  {
  }

  lemma RootedShows(e: Env, w: World, x: Claim)
    requires Shows(e, w.ctx, x)
    ensures Shows(Rooted(e, w, x), w.ctx, x) && Lookup(Rooted(e, w, x), OldRoot) == RootIn(x)
    ensures Lookup(Rooted(e, w, x), NewState) == x.newState && Lookup(Rooted(e, w, x), BridgeId) == x.bridgeId
  {
    hide RootIn, CabooseSpk, Prevouts, Amounts, Spks, SpkOf;
    ShowsBind(e, w.ctx, x, OldCaboose, CabooseSpk(w.sha, Lookup(e, OldState)));
    ShowsBind(WithCaboose(e, w), w.ctx, x, OldRoot, RootIn(x));
  }
}
