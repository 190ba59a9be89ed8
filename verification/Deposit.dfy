// Identity-bound deposits: the collection body a deposit leaf runs, the leaf itself as bytes and as a two-path
// program, and its reconstruction inside the bridge program.
module Deposit {
  import opened Bytes
  import opened Transactions
  import opened Script
  import opened Building
  import opened Calls
  import opened BuilderClass
  import opened TxContext
  import opened Linearization

  // ---------- the predecessor's state output and caboose ----------

  function ParentOutputCalls(p: Prog, amount: nat, spk: nat, cabooseValue: nat, caboose: nat): Prog {
    EqualVerify(Then(SliceCalls(MakeCabooseCalls(EqualSliceCalls(
      EqualVerify(Then(SliceCalls(EqualVerify(SliceCalls(SliceCalls(p, Parent, amount, 8), AmountsOf, 0, 8)),
        Parent, spk, 34), Get(ProgramSpk))),
      Parent, cabooseValue, LE(CABOOSE_VALUE, 8)), OldState, OldCaboose), Parent, caboose, 34), Get(OldCaboose)))
  }

  method CheckParentOutput(b: Builder, amount: nat, spk: nat, cabooseValue: nat, caboose: nat)
    requires b.Valid() && {Parent, AmountsOf, ProgramSpk, OldState} <= (set n | n in b.names)
    modifies b
    ensures b.Valid() && b.names == old(b.names) + [OldCaboose]
    ensures b.at == old(b.at).(prog := ParentOutputCalls(old(b.at).prog, amount, spk, cabooseValue, caboose))
  {
    b.Slice(Parent, amount, 8);
    b.Slice(AmountsOf, 0, 8);
    b.Op(OP_EQUALVERIFY, 2, 0);
    assert b.names == old(b.names);
    b.Slice(Parent, spk, 34);
    b.Get(ProgramSpk);
    b.Op(OP_EQUALVERIFY, 2, 0);
    assert b.names == old(b.names);
    b.EqualSlice(Parent, cabooseValue, LE(CABOOSE_VALUE, 8));
    MakeCaboose(b, OldState, OldCaboose);
    b.Slice(Parent, caboose, 34);
    b.Get(OldCaboose);
    b.Op(OP_EQUALVERIFY, 2, 0);
    assert b.names == old(b.names) + [OldCaboose];
  }

  /** The serialized predecessor holds the spent amount under the program script in output 0, and commits to the
      state in its last output. */
  predicate ParentPays(parent: bytes, ins: nat, outs: nat, amount: bytes, spk: bytes, caboose: bytes)
    requires outs > 0
  {
    && At(parent, OutputOffset(ins, 0), amount) && At(parent, OutputOffset(ins, 0) + 9, spk)
    && At(parent, OutputOffset(ins, outs - 1), LE(CABOOSE_VALUE, 8))
    && At(parent, OutputOffset(ins, outs - 1) + 9, caboose)
  }

  /** A slice in range that must equal a named value of its length. */
  lemma CutEqualStep(p: Prog, n: Name, start: nat, len: nat, m: Name, e0: Env, w: World, e: Env, ok: bool)
    requires Reaches(p, e0, w, e, ok) && m != Anon
    requires ok ==> start + len <= |Lookup(e, n)| && |Lookup(e, m)| == len
    ensures Reaches(EqualVerify(Then(SliceCalls(p, n, start, len), Get(m))), e0, w, e,
                    ok && At(Lookup(e, n), start, Lookup(e, m)))
  {
    hide Reaches, SliceCalls;
    var x := if ok then Lookup(e, n)[start..start + len] else [];
    var p1, e1 := SliceCalls(p, n, start, len), Bind(e, Anon, x);
    CutStep(p, n, start, len, e0, w, e, ok);
    GetStep(p1, m, e0, w, e1, ok);
    LookupBind(e, Anon, x, m);
    EqualStep(Then(p1, Get(m)), e0, w, Bind(e1, Anon, Lookup(e, m)), ok);
  }

  /** Two slices in range that must be equal. */
  lemma CutsEqualStep(p: Prog, n: Name, start: nat, m: Name, from: nat, len: nat, e0: Env, w: World, e: Env, ok: bool)
    requires Reaches(p, e0, w, e, ok) && m != Anon
    requires ok ==> start + len <= |Lookup(e, n)| && from + len <= |Lookup(e, m)|
    ensures Reaches(EqualVerify(SliceCalls(SliceCalls(p, n, start, len), m, from, len)), e0, w, e,
                    ok && At(Lookup(e, n), start, Lookup(e, m)[from..from + len]))
  {
    hide Reaches, SliceCalls, Lookup;
    var x := if ok then Lookup(e, n)[start..start + len] else [];
    var y := if ok then Lookup(e, m)[from..from + len] else [];
    var p1, e1 := SliceCalls(p, n, start, len), Bind(e, Anon, x);
    CutStep(p, n, start, len, e0, w, e, ok);
    LookupBind(e, Anon, x, m);
    CutStep(p1, m, from, len, e0, w, e1, ok);
    EqualStep(SliceCalls(p1, m, from, len), e0, w, Bind(e1, Anon, y), ok);
  }

  lemma ParentOutputAt(p: Prog, a: nat, c: nat, e0: Env, w: World, e: Env, ok: bool)
    requires Reaches(p, e0, w, e, ok)
    requires ok ==> && a + 43 <= |Lookup(e, Parent)| && c + 43 <= |Lookup(e, Parent)|
                    && |Lookup(e, ProgramSpk)| == 34 && |Lookup(e, AmountsOf)| >= 8
    ensures var caboose, parent := CabooseSpk(w.sha, Lookup(e, OldState)), Lookup(e, Parent);
            Reaches(ParentOutputCalls(p, a, a + 9, c, c + 9), e0, w, Bind(e, OldCaboose, caboose),
                    && ok && At(parent, a, Lookup(e, AmountsOf)[0..8]) && At(parent, a + 9, Lookup(e, ProgramSpk))
                    && At(parent, c, LE(CABOOSE_VALUE, 8)) && At(parent, c + 9, caboose))
  {
    hide Reaches, SliceCalls, MakeCabooseCalls, EqualSliceCalls, CabooseSpk, SliceIs, At, Lookup, LE;
    var parent, spk, amount := Lookup(e, Parent), Lookup(e, ProgramSpk), Lookup(e, AmountsOf);
    var caboose := CabooseSpk(w.sha, Lookup(e, OldState));
    var p1, k1 := EqualVerify(SliceCalls(SliceCalls(p, Parent, a, 8), AmountsOf, 0, 8)),
        ok && At(parent, a, amount[0..8]);
    var p2, k2 := EqualVerify(Then(SliceCalls(p1, Parent, a + 9, 34), Get(ProgramSpk))), k1 && At(parent, a + 9, spk);
    var p3, k3 := EqualSliceCalls(p2, Parent, c, LE(CABOOSE_VALUE, 8)), k2 && At(parent, c, LE(CABOOSE_VALUE, 8));
    var p4, e4 := MakeCabooseCalls(p3, OldState, OldCaboose), Bind(e, OldCaboose, caboose);
    CutsEqualStep(p, Parent, a, AmountsOf, 0, 8, e0, w, e, ok);
    CutEqualStep(p1, Parent, a + 9, 34, ProgramSpk, e0, w, e, k1);
    EqualSliceInStep(p2, Parent, c, LE(CABOOSE_VALUE, 8), e0, w, e, k2);
    MakeCabooseStep(p3, OldState, OldCaboose, e0, w, e, k3);
    LookupBind(e, OldCaboose, caboose, Parent);
    LookupBind(e, OldCaboose, caboose, OldCaboose);
    CabooseLength(w.sha, Lookup(e, OldState));
    CutEqualStep(p4, Parent, c + 9, 34, OldCaboose, e0, w, e4, k3);
  }

  /** An equal-slice check that is known to be in range. */
  lemma EqualSliceInStep(p: Prog, n: Name, start: nat, x: bytes, e0: Env, w: World, e: Env, ok: bool)
    requires Reaches(p, e0, w, e, ok) && (ok ==> start + |x| <= |Lookup(e, n)|)
    ensures Reaches(EqualSliceCalls(p, n, start, x), e0, w, e, ok && At(Lookup(e, n), start, x))
  {
    hide Reaches, EqualSliceCalls, SliceIs;
    EqualSliceStep(p, n, start, x, e0, w, e, ok);
    if ok {
      InRange(w, Lookup(e, n), start, x);
    }
  }

  lemma ParentOutputStep(p: Prog, ins: nat, outs: nat, e0: Env, w: World, e: Env, ok: bool)
    requires Reaches(p, e0, w, e, ok) && outs > 0
    requires ok ==> && |Lookup(e, Parent)| == PlainSize(ins, outs)
                    && |Lookup(e, ProgramSpk)| == 34 && |Lookup(e, AmountsOf)| >= 8
    ensures var a, c := OutputOffset(ins, 0), OutputOffset(ins, outs - 1);
            var caboose := CabooseSpk(w.sha, Lookup(e, OldState));
            Reaches(ParentOutputCalls(p, a, a + 9, c, c + 9), e0, w, Bind(e, OldCaboose, caboose),
                    ok && ParentPays(Lookup(e, Parent), ins, outs, Lookup(e, AmountsOf)[0..8],
                                     Lookup(e, ProgramSpk), caboose))
  {
    hide Reaches, ParentOutputCalls, CabooseSpk, At, Lookup, LE;
    ParentOutputAt(p, OutputOffset(ins, 0), OutputOffset(ins, outs - 1), e0, w, e, ok);
  }

  // ---------- which head a deposit may join ----------

  /** The predecessor hashes to the txid input 0 spends. */
  function ParentTxidCalls(p: Prog): Prog {
    EqualVerify(SliceCalls(HashCalls(Then(p, Get(Parent)), OP_HASH256), PrevoutsOf, 0, 32))
  }

  method CheckParentTxid(b: Builder)
    requires b.Valid() && Parent in b.names && PrevoutsOf in b.names
    modifies b
    ensures b.Valid() && b.names == old(b.names)
    ensures b.at == old(b.at).(prog := ParentTxidCalls(old(b.at).prog))
  {
    b.Get(Parent);
    b.Op(OP_HASH256, 1, 1);
    b.Slice(PrevoutsOf, 0, 32);
    b.Op(OP_EQUALVERIFY, 2, 0);
    assert b.names == old(b.names);
  }

  lemma ParentTxidStep(p: Prog, e0: Env, w: World, e: Env, ok: bool)
    requires Reaches(p, e0, w, e, ok) && (ok ==> |Lookup(e, PrevoutsOf)| >= 32)
    ensures Reaches(ParentTxidCalls(p), e0, w, e,
                    ok && At(Lookup(e, PrevoutsOf), 0, Hash256(w.sha, Lookup(e, Parent))))
  {
    hide Reaches, SliceCalls, HashCalls;
    var h := Hash256(w.sha, Lookup(e, Parent));
    var p1, p2 := Then(p, Get(Parent)), HashCalls(Then(p, Get(Parent)), OP_HASH256);
    var x := if ok then Lookup(e, PrevoutsOf)[0..32] else [];
    GetStep(p, Parent, e0, w, e, ok);
    HashStep(p1, OP_HASH256, e0, w, Bind(e, Anon, Lookup(e, Parent)), ok);
    LookupBind(e, Anon, h, PrevoutsOf);
    CutStep(p2, PrevoutsOf, 0, 32, e0, w, Bind(e, Anon, h), ok);
    EqualStep(SliceCalls(p2, PrevoutsOf, 0, 32), e0, w, Bind(Bind(e, Anon, h), Anon, x), ok);
  }

  /** The predecessor is the transaction that names the bridge. */
  function IdentityCalls(p: Prog): Prog {
    EqualVerify(Then(HashCalls(Then(p, Get(Parent)), OP_HASH256), Get(BridgeId)))
  }

  method CheckIdentity(b: Builder)
    requires b.Valid() && Parent in b.names && BridgeId in b.names
    modifies b
    ensures b.Valid() && b.names == old(b.names)
    ensures b.at == old(b.at).(prog := IdentityCalls(old(b.at).prog))
  {
    b.Get(Parent);
    b.Op(OP_HASH256, 1, 1);
    b.Get(BridgeId);
    b.Op(OP_EQUALVERIFY, 2, 0);
    assert b.names == old(b.names);
  }

  lemma IdentityStep(p: Prog, e0: Env, w: World, e: Env, ok: bool)
    requires Reaches(p, e0, w, e, ok)
    ensures Reaches(IdentityCalls(p), e0, w, e, ok && Hash256(w.sha, Lookup(e, Parent)) == Lookup(e, BridgeId))
  {
    hide Reaches, HashCalls;
    var h := Hash256(w.sha, Lookup(e, Parent));
    var p1, p2 := Then(p, Get(Parent)), HashCalls(Then(p, Get(Parent)), OP_HASH256);
    GetStep(p, Parent, e0, w, e, ok);
    HashStep(p1, OP_HASH256, e0, w, Bind(e, Anon, Lookup(e, Parent)), ok);
    GetStep(p2, BridgeId, e0, w, Bind(e, Anon, h), ok);
    LookupBind(e, Anon, h, BridgeId);
    EqualStep(Then(p2, Get(BridgeId)), e0, w, Bind(Bind(e, Anon, h), Anon, Lookup(e, BridgeId)), ok);
  }

  /** The old state is of one kind; an active one names the bridge. */
  function StateMarkCalls(p: Prog, size: nat, mark: bytes): Prog {
    EqualSliceCalls(RequireSizeCalls(p, OldState, size), OldState, 0, mark)
  }

  lemma StateMarkStep(p: Prog, size: nat, mark: bytes, e0: Env, w: World, e: Env, ok: bool)
    requires Reaches(p, e0, w, e, ok) && |mark| <= size
    ensures Reaches(StateMarkCalls(p, size, mark), e0, w, e,
                    ok && |Lookup(e, OldState)| == size && At(Lookup(e, OldState), 0, mark))
  {
    hide Reaches, EqualSliceCalls, RequireSizeCalls;
    RequireSizeStep(p, OldState, size, e0, w, e, ok);
    EqualSliceInStep(RequireSizeCalls(p, OldState, size), OldState, 0, mark, e0, w, e,
                     ok && |Lookup(e, OldState)| == size);
  }

  function DepositGenesisCalls(p: Prog): Prog {
    IdentityCalls(StateMarkCalls(ParentOutputCalls(OneInputTwoOutputCalls(p, Parent), 47, 56, 90, 99), 41,
                                 GENESIS_MARK))
  }

  function CollectionHeadCalls(p: Prog): Prog {
    ParentOutputCalls(CollectionTransactionCalls(p, Parent), 170, 179, 256, 265)
  }

  function SettlementHeadCalls(p: Prog): Prog {
    ParentOutputCalls(SettlementTransactionCalls(p, Parent), 88, 97, 217, 226)
  }

  function DepositActiveCalls(p: Prog): Prog {
    EqualVerify(Then(SliceCalls(StateMarkCalls(
      Then(IsSizeCalls(p, Parent, 303), Branch(CollectionHeadCalls(Nil), SettlementHeadCalls(Nil))),
      73, ACTIVE_MARK), OldState, 9, 32), Get(BridgeId)))
  }

  /** The values a deposit's checks of the head depend on. */
  datatype Head = Head(parent: bytes, oldState: bytes, bridgeId: bytes, spk: bytes, amount: bytes)

  predicate Pays(sha: Hash, h: Head, ins: byte, outs: byte) {
    outs > 0 && PlainShape(h.parent, ins, outs)
    && ParentPays(h.parent, ins, outs, h.amount, h.spk, CabooseSpk(sha, h.oldState))
  }

  predicate GenesisHead(sha: Hash, h: Head) {
    && Pays(sha, h, 1, 2) && |h.oldState| == 41 && At(h.oldState, 0, GENESIS_MARK)
    && Hash256(sha, h.parent) == h.bridgeId
  }

  predicate ActiveHead(sha: Hash, h: Head) {
    && (if |h.parent| == 303 then Pays(sha, h, 4, 3) else Pays(sha, h, 2, 4))
    && |h.oldState| == 73 && At(h.oldState, 0, ACTIVE_MARK) && At(h.oldState, 9, h.bridgeId)
  }

  predicate JoinsHead(sha: Hash, h: Head) { if |h.parent| == 137 then GenesisHead(sha, h) else ActiveHead(sha, h) }

  function HeadOf(e: Env): Head
    requires |Lookup(e, AmountsOf)| >= 8
  {
    Head(Lookup(e, Parent), Lookup(e, OldState), Lookup(e, BridgeId), Lookup(e, ProgramSpk), Lookup(e, AmountsOf)[0..8])
  }

  /** What the head checks may rely on. */
  predicate HeadReady(e: Env) {
    |Lookup(e, ProgramSpk)| == 34 && |Lookup(e, AmountsOf)| >= 8 && |Lookup(e, BridgeId)| == 32
  }

  function WithCaboose(e: Env, w: World): Env { Bind(e, OldCaboose, CabooseSpk(w.sha, Lookup(e, OldState))) }

  lemma LookupCaboose(e: Env, w: World, n: Name)
    requires n != OldCaboose
    ensures Lookup(WithCaboose(e, w), n) == Lookup(e, n)
  {
  }

  lemma HeadOutputStep(p: Prog, ins: byte, outs: byte, e0: Env, w: World, e: Env, ok: bool)
    requires HeadReady(e) && outs > 0
    requires Reaches(p, e0, w, e, ok && PlainShape(Lookup(e, Parent), ins, outs))
    ensures var a, c := OutputOffset(ins, 0), OutputOffset(ins, outs - 1);
            Reaches(ParentOutputCalls(p, a, a + 9, c, c + 9), e0, w, WithCaboose(e, w),
                    ok && Pays(w.sha, HeadOf(e), ins, outs))
  {
    hide Reaches, ParentOutputCalls, CabooseSpk, At, Lookup;
    ParentOutputStep(p, ins, outs, e0, w, e, ok && PlainShape(Lookup(e, Parent), ins, outs));
  }

  lemma DepositGenesisStep(p: Prog, e0: Env, w: World, e: Env, ok: bool)
    requires Reaches(p, e0, w, e, ok) && HeadReady(e)
    ensures Reaches(DepositGenesisCalls(p), e0, w, WithCaboose(e, w), ok && GenesisHead(w.sha, HeadOf(e)))
  {
    hide Reaches, OneInputTwoOutputCalls, ParentOutputCalls, StateMarkCalls, IdentityCalls, PlainShape, Lookup, At;
    hide Pays;
    hide HeadReady, CabooseSpk, WithCaboose, Hash256;
    assert |Lookup(e, AmountsOf)| >= 8 by { HeadIsReady(e); }
    var h, e' := HeadOf(e), WithCaboose(e, w);
    var p1 := OneInputTwoOutputCalls(p, Parent);
    var p2, k2 := ParentOutputCalls(p1, 47, 56, 90, 99), ok && Pays(w.sha, h, 1, 2);
    var p3, k3 := StateMarkCalls(p2, 41, GENESIS_MARK), k2 && |h.oldState| == 41 && At(h.oldState, 0, GENESIS_MARK);
    OneInputTwoOutputStep(p, Parent, e0, w, e, ok);
    HeadOutputStep(p1, 1, 2, e0, w, e, ok);
    LookupCaboose(e, w, OldState);
    LookupCaboose(e, w, Parent);
    LookupCaboose(e, w, BridgeId);
    StateMarkStep(p2, 41, GENESIS_MARK, e0, w, e', k2);
    IdentityStep(p3, e0, w, e', k3);
  }

  lemma HeadIsReady(e: Env)
    requires HeadReady(e)
    ensures |Lookup(e, ProgramSpk)| == 34 && |Lookup(e, AmountsOf)| >= 8 && |Lookup(e, BridgeId)| == 32
  {
  }

  lemma CollectionHeadStep(p: Prog, e0: Env, w: World, e: Env, ok: bool)
    requires Reaches(p, e0, w, e, ok) && HeadReady(e) && |Lookup(e, AmountsOf)| >= 8
    ensures Reaches(CollectionHeadCalls(p), e0, w, WithCaboose(e, w), ok && Pays(w.sha, HeadOf(e), 4, 3))
  {
    hide Reaches, CollectionTransactionCalls, ParentOutputCalls, PlainShape, Pays, Lookup, WithCaboose, HeadReady;
    CollectionTransactionStep(p, Parent, e0, w, e, ok);
    HeadOutputStep(CollectionTransactionCalls(p, Parent), 4, 3, e0, w, e, ok);
  }

  lemma SettlementHeadStep(p: Prog, e0: Env, w: World, e: Env, ok: bool)
    requires Reaches(p, e0, w, e, ok) && HeadReady(e) && |Lookup(e, AmountsOf)| >= 8
    ensures Reaches(SettlementHeadCalls(p), e0, w, WithCaboose(e, w), ok && Pays(w.sha, HeadOf(e), 2, 4))
  {
    hide Reaches, SettlementTransactionCalls, ParentOutputCalls, PlainShape, Pays, Lookup, WithCaboose, HeadReady;
    SettlementTransactionStep(p, Parent, e0, w, e, ok);
    HeadOutputStep(SettlementTransactionCalls(p, Parent), 2, 4, e0, w, e, ok);
  }

  lemma DepositActiveStep(p: Prog, e0: Env, w: World, e: Env, ok: bool)
    requires Reaches(p, e0, w, e, ok) && HeadReady(e)
    ensures Reaches(DepositActiveCalls(p), e0, w, WithCaboose(e, w), ok && ActiveHead(w.sha, HeadOf(e)))
  {
    hide Reaches, CollectionHeadCalls, SettlementHeadCalls, StateMarkCalls, SliceCalls, IsSizeCalls, Lookup, At, Pays;
    hide HeadReady, CabooseSpk;
    HeadIsReady(e);
    var h, e' := HeadOf(e), WithCaboose(e, w);
    var is303 := |h.parent| == 303;
    var p1 := IsSizeCalls(p, Parent, 303);
    var p2 := Then(p1, Branch(CollectionHeadCalls(Nil), SettlementHeadCalls(Nil)));
    var k2 := ok && if is303 then Pays(w.sha, h, 4, 3) else Pays(w.sha, h, 2, 4);
    var p3, k3 := StateMarkCalls(p2, 73, ACTIVE_MARK), k2 && |h.oldState| == 73 && At(h.oldState, 0, ACTIVE_MARK);
    IsSizeStep(p, Parent, 303, e0, w, e, ok);
    NilStep(e, w);
    CollectionHeadStep(Nil, e, w, e, true);
    SettlementHeadStep(Nil, e, w, e, true);
    BranchStep(p1, CollectionHeadCalls(Nil), SettlementHeadCalls(Nil), e0, w, e, ok, is303, e',
               Pays(w.sha, h, 4, 3), Pays(w.sha, h, 2, 4));
    LookupCaboose(e, w, OldState);
    LookupCaboose(e, w, BridgeId);
    StateMarkStep(p2, 73, ACTIVE_MARK, e0, w, e', k2);
    CutEqualStep(p3, OldState, 9, 32, BridgeId, e0, w, e', k3);
  }

  // ---------- the collection body of a deposit leaf ----------

  const BODY_NAMES: seq<Name> := [Parent, OldState, ProgramSpk, BridgeId, AccountKey, RecipientId]

  function HeadCalls(p: Prog): Prog {
    Then(IsSizeCalls(ParentTxidCalls(p), Parent, 137), Branch(DepositGenesisCalls(Nil), DepositActiveCalls(Nil)))
  }

  function IndexCalls(p: Prog): Prog {
    Then(Then(Then(Then(TxCalls(p, CURRENT_INDEX), Number(1)), Number(3)), Do(OP_WITHIN, 3, 1)), Do(OP_VERIFY, 1, 0))
  }

  function OwnProgramCalls(p: Prog): Prog {
    EqualVerify(Then(SliceCalls(EqualSliceCalls(p, SpksOf, 0, [0x22]), SpksOf, 1, 34), Get(ProgramSpk)))
  }

  function BodySizeCalls(p: Prog): Prog {
    RequireSizeCalls(RequireSizeCalls(RequireSizeCalls(RequireSizeCalls(p, ProgramSpk, 34), BridgeId, 32),
      AccountKey, 32), RecipientId, 4)
  }

  function BodyCheckCalls(p: Prog): Prog {
    HeadCalls(IndexCalls(OwnProgramCalls(ContextCalls(BodySizeCalls(p), 4, 3))))
  }

  function BodyCalls(): Prog { Then(DropCalls(BodyCheckCalls(Nil), 10), Number(1)) }

  method CheckBody(b: Builder)
    requires b.Valid()
    requires {Parent, OldState, ProgramSpk, BridgeId, AccountKey, RecipientId} <= (set n | n in b.names)
    modifies b
    ensures b.Valid() && b.names == old(b.names) + [PrevoutsOf, AmountsOf, SpksOf, OldCaboose]
    ensures b.at == old(b.at).(prog := BodyCheckCalls(old(b.at).prog))
  {
    hide RequireSizeCalls, ContextCalls, OwnProgramCalls, IndexCalls, HeadCalls;
    b.RequireSize(ProgramSpk, 34);
    b.RequireSize(BridgeId, 32);
    b.RequireSize(AccountKey, 32);
    b.RequireSize(RecipientId, 4);
    CheckContext(b, 4, 3);
    CheckOwnProgram(b);
    CheckIndex(b);
    CheckHead(b);
  }

  method DepositCollectionBody() returns (code: bytes)
    ensures Legal(BodyCalls(), BODY_NAMES) && code == BodyBytes()
    ensures NamesAfter(BodyCalls(), BODY_NAMES) == [Anon]
  {
    hide BodyCheckCalls, DropCalls, Emit, Legal, NamesAfter, Assemble;
    var b := new Builder(BODY_NAMES);
    CheckBody(b);
    assert |b.names| == 10;
    code := b.Finish();
    assert [] + BodyCode() == BodyCode();
  }

  method CheckOwnProgram(b: Builder)
    requires b.Valid() && SpksOf in b.names && ProgramSpk in b.names
    modifies b
    ensures b.Valid() && b.names == old(b.names)
    ensures b.at == old(b.at).(prog := OwnProgramCalls(old(b.at).prog))
  {
    b.EqualSlice(SpksOf, 0, [0x22]);
    b.Slice(SpksOf, 1, 34);
    b.Get(ProgramSpk);
    b.Op(OP_EQUALVERIFY, 2, 0);
    assert b.names == old(b.names);
  }

  method CheckIndex(b: Builder)
    requires b.Valid()
    modifies b
    ensures b.Valid() && b.names == old(b.names)
    ensures b.at == old(b.at).(prog := IndexCalls(old(b.at).prog))
  {
    b.Tx(CURRENT_INDEX);
    b.Number(1);
    b.Number(3);
    b.Op(OP_WITHIN, 3, 1);
    b.Op(OP_VERIFY, 1, 0);
    assert b.names == old(b.names);
  }

  method CheckHead(b: Builder)
    requires b.Valid() && {Parent, OldState, ProgramSpk, BridgeId, PrevoutsOf, AmountsOf} <= (set n | n in b.names)
    modifies b
    ensures b.Valid() && b.names == old(b.names) + [OldCaboose]
    ensures b.at == old(b.at).(prog := HeadCalls(old(b.at).prog))
  {
    CheckParentTxid(b);
    IsSize(b, Parent, 137);
    var before := b.BeginBranch();
    assert before == old(b.names);
    CheckDepositGenesis(b);
    var after := b.ElseBranch(before);
    CheckDepositActive(b);
    b.EndBranch(after);
  }

  method IsSize(b: Builder, n: Name, size: nat)
    requires b.Valid() && n in b.names
    modifies b
    ensures b.Valid() && b.names == old(b.names) + [Anon]
    ensures b.at == old(b.at).(prog := IsSizeCalls(old(b.at).prog, n, size))
  {
    b.Get(n);
    b.Op(OP_SIZE, 0, 1);
    b.Number(size);
    assert b.names == old(b.names) + [Anon, Anon, Anon];
    b.Op(OP_NUMEQUAL, 2, 1);
    assert b.names == old(b.names) + [Anon, Anon];
    b.Op(OP_SWAP, 2, 2);
    assert b.names == old(b.names) + [Anon, Anon];
    b.Op(OP_DROP, 1, 0);
    assert b.names == old(b.names) + [Anon];
  }

  method CheckDepositGenesis(b: Builder)
    requires b.Valid() && {Parent, OldState, ProgramSpk, BridgeId, AmountsOf} <= (set n | n in b.names)
    modifies b
    ensures b.Valid() && b.names == old(b.names) + [OldCaboose]
    ensures b.at == old(b.at).(prog := DepositGenesisCalls(old(b.at).prog))
  {
    CheckOneInputTwoOutput(b, Parent);
    CheckParentOutput(b, 47, 56, 90, 99);
    b.RequireSize(OldState, 41);
    b.EqualSlice(OldState, 0, GENESIS_MARK);
    CheckIdentity(b);
  }

  method CheckDepositActive(b: Builder)
    requires b.Valid() && {Parent, OldState, ProgramSpk, BridgeId, AmountsOf} <= (set n | n in b.names)
    modifies b
    ensures b.Valid() && b.names == old(b.names) + [OldCaboose]
    ensures b.at == old(b.at).(prog := DepositActiveCalls(old(b.at).prog))
  {
    hide IsSizeCalls, CollectionHeadCalls, SettlementHeadCalls, RequireSizeCalls, EqualSliceCalls;
    CheckActiveOutput(b);
    b.RequireSize(OldState, 73);
    b.EqualSlice(OldState, 0, ACTIVE_MARK);
    b.Slice(OldState, 9, 32);
    b.Get(BridgeId);
    b.Op(OP_EQUALVERIFY, 2, 0);
    assert b.names == old(b.names) + [OldCaboose];
  }

  method CheckActiveOutput(b: Builder)
    requires b.Valid() && {Parent, OldState, ProgramSpk, AmountsOf} <= (set n | n in b.names)
    modifies b
    ensures b.Valid() && b.names == old(b.names) + [OldCaboose]
    ensures b.at == old(b.at).(prog :=
      Then(IsSizeCalls(old(b.at).prog, Parent, 303), Branch(CollectionHeadCalls(Nil), SettlementHeadCalls(Nil))))
  {
    IsSize(b, Parent, 303);
    var before := b.BeginBranch();
    assert before == old(b.names);
    CheckCollectionTransaction(b, Parent);
    CheckParentOutput(b, 170, 179, 256, 265);
    var after := b.ElseBranch(before);
    CheckSettlementTransaction(b, Parent);
    CheckParentOutput(b, 88, 97, 217, 226);
    b.EndBranch(after);
  }

  function BodyCode(): seq<Instr> { Emit(BodyCalls(), BODY_NAMES) }

  function BodyBytes(): bytes { Assemble(BodyCode()) }

  /** The six items the body is written against, over any base. */
  function BodyEnv(items: seq<bytes>, parent: bytes, oldState: bytes, spk: bytes, bridgeId: bytes, key: bytes,
                   recipient: bytes): Env {
    Bind(Bind(Bind(Bind(Bind(Bind(Base(items), Parent, parent), OldState, oldState), ProgramSpk, spk),
      BridgeId, bridgeId), AccountKey, key), RecipientId, recipient)
  }

  /** A deposit may be collected in this transaction: a collection whose input 0 spends the program output of a
      head of the bridge named in the leaf. */
  predicate Collectible(w: World, parent: bytes, oldState: bytes, spk: bytes, bridgeId: bytes) {
    var c := w.ctx;
    && |spk| == 34 && |bridgeId| == 32 && PlainContext(c, 4, 3) && |c.spent| == 4
    && c.spent[0].spk == spk && 1 <= c.index < 3
    && Hash256(w.sha, parent) == c.tx.inputs[0].prevout.txid
    && JoinsHead(w.sha, Head(parent, oldState, bridgeId, spk, LE(c.spent[0].amount, 8)))
  }

  lemma IndexStep(p: Prog, e0: Env, w: World, e: Env, ok: bool)
    requires Reaches(p, e0, w, e, ok) && WellFormed(w.ctx)
    ensures Reaches(IndexCalls(p), e0, w, e, ok && 1 <= w.ctx.index < 3)
  {
    hide Reaches, TxCalls, SignedNum, TxField;
    TxFields(w.ctx);
    var i := LE(w.ctx.index, 4);
    var p1, e1 := TxCalls(p, CURRENT_INDEX), Bind(e, Anon, i);
    var p2, e2 := Then(p1, Number(1)), Bind(e1, Anon, SignedNum(1));
    var p3, e3 := Then(p2, Number(3)), Bind(e2, Anon, SignedNum(3));
    TxStep(p, CURRENT_INDEX, e0, w, e, ok);
    NumberStep(p1, 1, e0, w, e1, ok);
    NumberStep(p2, 3, e0, w, e2, ok);
    WithinStep(p3, e0, w, e, Anon, i, SignedNum(1), SignedNum(3), ok);
    Pow256Values();
    LEVal(w.ctx.index, 4);
    VerifyStep(Then(p3, Do(OP_WITHIN, 3, 1)), e0, w, Bind(e, Anon, Bool(1 <= w.ctx.index < 3)), ok,
               1 <= w.ctx.index < 3);
  }

  lemma OwnProgramStep(p: Prog, e0: Env, w: World, e: Env, ok: bool)
    requires Reaches(p, e0, w, e, ok) && WellFormed(w.ctx)
    requires Lookup(e, SpksOf) == Spks(w.ctx) && (ok ==> |Lookup(e, ProgramSpk)| == 34)
    requires ok ==> |w.ctx.spent| > 0 && |Spks(w.ctx)| >= 35
    ensures Reaches(OwnProgramCalls(p), e0, w, e, ok && w.ctx.spent[0].spk == Lookup(e, ProgramSpk))
  {
    hide Reaches, EqualSliceCalls, SliceCalls, Spks;
    var c := w.ctx;
    var p1, k1 := EqualSliceCalls(p, SpksOf, 0, [0x22]), ok && At(Spks(c), 0, [0x22]);
    EqualSliceInStep(p, SpksOf, 0, [0x22], e0, w, e, ok);
    CutEqualStep(p1, SpksOf, 1, 34, ProgramSpk, e0, w, e, k1);
    if ok {
      FirstSpk(c);
    }
  }

  lemma HeadStep(p: Prog, e0: Env, w: World, e: Env, ok: bool)
    requires Reaches(p, e0, w, e, ok) && |Lookup(e, AmountsOf)| >= 8
    requires ok ==> HeadReady(e) && |Lookup(e, PrevoutsOf)| >= 32
    ensures Reaches(HeadCalls(p), e0, w, WithCaboose(e, w),
                    ok && At(Lookup(e, PrevoutsOf), 0, Hash256(w.sha, Lookup(e, Parent)))
                      && JoinsHead(w.sha, HeadOf(e)))
  {
    hide Reaches, ParentTxidCalls, IsSizeCalls, DepositGenesisCalls, DepositActiveCalls, HeadReady, GenesisHead;
    hide ActiveHead;
    hide Lookup, At;
    var is137 := |Lookup(e, Parent)| == 137;
    var p1, k1 := ParentTxidCalls(p), ok && At(Lookup(e, PrevoutsOf), 0, Hash256(w.sha, Lookup(e, Parent)));
    ParentTxidStep(p, e0, w, e, ok);
    IsSizeStep(p1, Parent, 137, e0, w, e, k1);
    if k1 {
      NilStep(e, w);
      DepositGenesisStep(Nil, e, w, e, true);
      DepositActiveStep(Nil, e, w, e, true);
    }
    BranchStep(IsSizeCalls(p1, Parent, 137), DepositGenesisCalls(Nil), DepositActiveCalls(Nil), e0, w, e, k1, is137,
               WithCaboose(e, w), GenesisHead(w.sha, HeadOf(e)), ActiveHead(w.sha, HeadOf(e)));
  }

  lemma BodyLookup(items: seq<bytes>, parent: bytes, oldState: bytes, spk: bytes, bridgeId: bytes, key: bytes,
                   recipient: bytes, n: Name)
    ensures Lookup(BodyEnv(items, parent, oldState, spk, bridgeId, key, recipient), n) ==
            if n == RecipientId then recipient else if n == AccountKey then key else if n == BridgeId then bridgeId
            else if n == ProgramSpk then spk else if n == OldState then oldState else if n == Parent then parent else []
  {
    var e1 := Bind(Base(items), Parent, parent);
    var e2 := Bind(e1, OldState, oldState);
    var e3 := Bind(e2, ProgramSpk, spk);
    var e4 := Bind(e3, BridgeId, bridgeId);
    var e5 := Bind(e4, AccountKey, key);
    LookupBind(Base(items), Parent, parent, n);
    LookupBind(e1, OldState, oldState, n);
    LookupBind(e2, ProgramSpk, spk, n);
    LookupBind(e3, BridgeId, bridgeId, n);
    LookupBind(e4, AccountKey, key, n);
    LookupBind(e5, RecipientId, recipient, n);
  }

  lemma BodyLookups(items: seq<bytes>, parent: bytes, oldState: bytes, spk: bytes, bridgeId: bytes, key: bytes,
                    recipient: bytes)
    ensures var e := BodyEnv(items, parent, oldState, spk, bridgeId, key, recipient);
            && Lookup(e, Parent) == parent && Lookup(e, OldState) == oldState && Lookup(e, ProgramSpk) == spk
            && Lookup(e, BridgeId) == bridgeId && Lookup(e, AccountKey) == key && Lookup(e, RecipientId) == recipient
  {
    hide Lookup, BodyEnv;
    BodyLookup(items, parent, oldState, spk, bridgeId, key, recipient, Parent);
    BodyLookup(items, parent, oldState, spk, bridgeId, key, recipient, OldState);
    BodyLookup(items, parent, oldState, spk, bridgeId, key, recipient, ProgramSpk);
    BodyLookup(items, parent, oldState, spk, bridgeId, key, recipient, BridgeId);
    BodyLookup(items, parent, oldState, spk, bridgeId, key, recipient, AccountKey);
    BodyLookup(items, parent, oldState, spk, bridgeId, key, recipient, RecipientId);
  }

  lemma {:induction false} UnbindAll(e: Env)
    ensures Unbind(e, |NamesOf(e)|) == Base(BaseOf(e))
  {
    if e.Bind? {
      UnbindAll(e.rest);
    }
  }

  lemma BodySizeStep(p: Prog, e0: Env, w: World, e: Env, ok: bool)
    requires Reaches(p, e0, w, e, ok)
    ensures Reaches(BodySizeCalls(p), e0, w, e,
                    && ok && |Lookup(e, ProgramSpk)| == 34 && |Lookup(e, BridgeId)| == 32
                    && |Lookup(e, AccountKey)| == 32 && |Lookup(e, RecipientId)| == 4)
  {
    hide Reaches, RequireSizeCalls;
    var p1, k1 := RequireSizeCalls(p, ProgramSpk, 34), ok && |Lookup(e, ProgramSpk)| == 34;
    var p2, k2 := RequireSizeCalls(p1, BridgeId, 32), k1 && |Lookup(e, BridgeId)| == 32;
    var p3, k3 := RequireSizeCalls(p2, AccountKey, 32), k2 && |Lookup(e, AccountKey)| == 32;
    RequireSizeStep(p, ProgramSpk, 34, e0, w, e, ok);
    RequireSizeStep(p1, BridgeId, 32, e0, w, e, k1);
    RequireSizeStep(p2, AccountKey, 32, e0, w, e, k2);
    RequireSizeStep(p3, RecipientId, 4, e0, w, e, k3);
  }

  /** The raw comparisons of a txid and an amount with what input 0 spends. */
  lemma FirstInputMeans(c: Context, h: bytes)
    requires WellFormed(c) && |h| == 32
    ensures |Amounts(c)| >= 8 && Amounts(c)[0..8] == LE(c.spent[0].amount, 8)
    ensures |Prevouts(c)| >= 36 && (At(Prevouts(c), 0, h) <==> h == c.tx.inputs[0].prevout.txid)
  {
    AmountAt(c, 0);
    PrevoutAt(c, 0);
    FirstPrevout(c);
  }

  lemma BodyCheckStep(e: Env, w: World)
    requires WellFormed(w.ctx) && |Amounts(w.ctx)| >= 8
    ensures var e1 := Read(e, w.ctx);
            Reaches(BodyCheckCalls(Nil), e, w, WithCaboose(e1, w),
                    && |Lookup(e, AccountKey)| == 32 && |Lookup(e, RecipientId)| == 4
                    && Collectible(w, Lookup(e, Parent), Lookup(e, OldState), Lookup(e, ProgramSpk),
                                   Lookup(e, BridgeId)))
  {
    hide Reaches, BodySizeCalls, ContextCalls, OwnProgramCalls, IndexCalls, HeadCalls, JoinsHead, PlainContext;
    hide Lookup, Prevouts, Amounts, Spks, CabooseSpk, Read, At;
    var c, e1 := w.ctx, Read(e, w.ctx);
    var parent, spk, id := Lookup(e, Parent), Lookup(e, ProgramSpk), Lookup(e, BridgeId);
    var k1 := |spk| == 34 && |id| == 32 && |Lookup(e, AccountKey)| == 32 && |Lookup(e, RecipientId)| == 4;
    var p1 := BodySizeCalls(Nil);
    var p2, k2 := ContextCalls(p1, 4, 3), k1 && PlainContext(c, 4, 3);
    var p3, k3 := OwnProgramCalls(p2), k2 && c.spent[0].spk == spk;
    var p4, k4 := IndexCalls(p3), k3 && 1 <= c.index < 3;
    NilStep(e, w);
    BodySizeStep(Nil, e, w, e, true);
    ContextStep(p1, 4, 3, e, w, e, k1);
    LookupRead(e, c, Parent);
    LookupRead(e, c, OldState);
    LookupRead(e, c, ProgramSpk);
    LookupRead(e, c, BridgeId);
    LookupRead(e, c, PrevoutsOf);
    LookupRead(e, c, AmountsOf);
    LookupRead(e, c, SpksOf);
    PlainCounts(c, 4, 3);
    OwnProgramStep(p2, e, w, e1, k2);
    IndexStep(p3, e, w, e1, k3);
    FirstInputMeans(c, Hash256(w.sha, parent));
    HeadStep(p4, e, w, e1, k4);
  }

  lemma PlainCounts(c: Context, ins: byte, outs: byte)
    requires WellFormed(c)
    ensures PlainContext(c, ins, outs) ==> |c.spent| == ins > 0 && |Spks(c)| == 35 * ins
  {
  }

  /** The collection body of a deposit leaf, on its six items over any base, accepts exactly the transactions
      that collect the deposit into its own bridge, and then leaves the base and a true value. */
  lemma BodyMeans(items: seq<bytes>, parent: bytes, oldState: bytes, spk: bytes, bridgeId: bytes, key: bytes,
                  recipient: bytes, w: World)
    requires WellFormed(w.ctx) && |key| == 32 && |recipient| == 4
    ensures Reaches(BodyCalls(), BodyEnv(items, parent, oldState, spk, bridgeId, key, recipient), w,
                    Bind(Base(items), Anon, [1]), Collectible(w, parent, oldState, spk, bridgeId))
  {
    hide Reaches, BodyCheckCalls, DropCalls, Collectible, Read, Lookup, CabooseSpk;
    var e := BodyEnv(items, parent, oldState, spk, bridgeId, key, recipient);
    var e2 := WithCaboose(Read(e, w.ctx), w);
    assert |Amounts(w.ctx)| >= 8 by { AmountAt(w.ctx, 0); }
    BodyLookups(items, parent, oldState, spk, bridgeId, key, recipient);
    BodyNames(items, parent, oldState, spk, bridgeId, key, recipient, w);
    BodyCheckStep(e, w);
    DropAllStep(BodyCheckCalls(Nil), 10, e, w, e2, Collectible(w, parent, oldState, spk, bridgeId));
    UnbindAll(e2);
    NumberStep(DropCalls(BodyCheckCalls(Nil), 10), 1, e, w, Base(items),
               Collectible(w, parent, oldState, spk, bridgeId));
    assert SignedNum(1) == [1] by { assert Minimal(1) == [1]; }
  }

  lemma BodyNames(items: seq<bytes>, parent: bytes, oldState: bytes, spk: bytes, bridgeId: bytes, key: bytes,
                  recipient: bytes, w: World)
    ensures var e := BodyEnv(items, parent, oldState, spk, bridgeId, key, recipient);
            && NamesOf(e) == BODY_NAMES && BaseOf(e) == items
            && Flat(e) == items + [parent, oldState, spk, bridgeId, key, recipient]
            && |NamesOf(WithCaboose(Read(e, w.ctx), w))| == 10 && BaseOf(WithCaboose(Read(e, w.ctx), w)) == items
  {
    hide Flat, NamesOf, BaseOf, Prevouts, Amounts, Spks, CabooseSpk;
    var e0 := Base(items);
    var e1 := Bind(e0, Parent, parent);
    var e2 := Bind(e1, OldState, oldState);
    var e3 := Bind(e2, ProgramSpk, spk);
    var e4 := Bind(e3, BridgeId, bridgeId);
    var e5 := Bind(e4, AccountKey, key);
    var e6 := Bind(e5, RecipientId, recipient);
    BaseShape(items);
    BindShape(e0, Parent, parent);
    BindShape(e1, OldState, oldState);
    BindShape(e2, ProgramSpk, spk);
    BindShape(e3, BridgeId, bridgeId);
    BindShape(e4, AccountKey, key);
    BindShape(e5, RecipientId, recipient);
    ReadShape(e6, w.ctx);
    BindShape(Read(e6, w.ctx), OldCaboose, CabooseSpk(w.sha, Lookup(Read(e6, w.ctx), OldState)));
    assert Flat(e6) == items + [parent, oldState, spk, bridgeId, key, recipient];
  }

  lemma BaseShape(items: seq<bytes>)
    ensures Flat(Base(items)) == items && NamesOf(Base(items)) == [] && BaseOf(Base(items)) == items
  {
  }

  lemma BindShape(e: Env, n: Name, v: bytes)
    ensures Flat(Bind(e, n, v)) == Flat(e) + [v] && NamesOf(Bind(e, n, v)) == NamesOf(e) + [n]
    ensures BaseOf(Bind(e, n, v)) == BaseOf(e)
  {
  }

  lemma ReadShape(e: Env, c: Context)
    ensures Flat(Read(e, c)) == Flat(e) + [Prevouts(c), Amounts(c), Spks(c)]
    ensures NamesOf(Read(e, c)) == NamesOf(e) + [PrevoutsOf, AmountsOf, SpksOf] && BaseOf(Read(e, c)) == BaseOf(e)
  {
    hide Flat, NamesOf, BaseOf, Prevouts, Amounts, Spks;
    var r1 := Bind(e, PrevoutsOf, Prevouts(c));
    var r2 := Bind(r1, AmountsOf, Amounts(c));
    BindShape(e, PrevoutsOf, Prevouts(c));
    BindShape(r1, AmountsOf, Amounts(c));
    BindShape(r2, SpksOf, Spks(c));
  }
}
