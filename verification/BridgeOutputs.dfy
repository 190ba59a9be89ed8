// The outputs a bridge program rebuilds and demands: the successor, a settlement's payout, the sponsor's change
// and the caboose of the new state.
module BridgeOutputs {
  import opened Bytes
  import opened Transactions
  import opened Script
  import opened Building
  import opened Calls
  import opened BuilderClass
  import opened TxContext
  import opened Linearization
  import opened Deposit
  import opened BridgeHead

  const SPONSORED: nat := MINER_FEE + CABOOSE_VALUE

  /** The amount of spent output `k`. */
  function Value(c: Context, k: nat): nat { if k < |c.spent| then c.spent[k].amount else 0 }

  function Sum3(c: Context): nat { Value(c, 0) + Value(c, 1) + Value(c, 2) }

  function Excess(a: nat, b: nat): nat { if a >= b then a - b else 0 }

  function Change(c: Context, k: nat): nat { Excess(Value(c, k), SPONSORED) }

  /** An output with a 34-byte script, in bytes. */
  function OutBytes(amount: nat, spk: bytes): bytes { LE(amount, 8) + [0x22] + spk }

  // ---------- amounts ----------

  lemma ValueStep(p: Prog, k: nat, e0: Env, w: World, e: Env, ok: bool)
    requires Reaches(p, e0, w, e, ok) && WellFormed(w.ctx) && Lookup(e, AmountsOf) == Amounts(w.ctx)
    requires ok ==> k < |w.ctx.spent|
    ensures Reaches(SliceCalls(p, AmountsOf, 8 * k, 8), e0, w, Bind(e, Anon, LE(Value(w.ctx, k), 8)), ok)
    ensures k < |w.ctx.spent| ==> Val(LE(Value(w.ctx, k), 8)) == Value(w.ctx, k)
  {
    hide Eval, SliceCalls, Amounts;
    if k < |w.ctx.spent| {
      AmountAt(w.ctx, k);
      Pow256Values();
      LEVal(Value(w.ctx, k), 8);
    }
    CutStep(p, AmountsOf, 8 * k, 8, e0, w, e, ok);
  }

  /** The successor's amount as the program computes it. */
  function BackingCalls(p: Prog): Prog {
    FixedWidthCalls(Then2(SliceCalls(Then2(SliceCalls(SliceCalls(p, AmountsOf, 0, 8), AmountsOf, 8, 8), OP_ADD),
      AmountsOf, 16, 8), OP_ADD), 8)
  }

  method CalculatedBacking(b: Builder)
    requires b.Valid() && AmountsOf in b.names
    modifies b
    ensures b.Valid() && b.names == old(b.names) + [Anon]
    ensures b.at == old(b.at).(prog := BackingCalls(old(b.at).prog))
  {
    b.Slice(AmountsOf, 0, 8);
    b.Slice(AmountsOf, 8, 8);
    b.Op(OP_ADD, 2, 1);
    assert b.names == old(b.names) + [Anon];
    b.Slice(AmountsOf, 16, 8);
    b.Op(OP_ADD, 2, 1);
    assert b.names == old(b.names) + [Anon];
    b.FixedWidth(8);
  }

  lemma BackingStep(p: Prog, e0: Env, w: World, e: Env, ok: bool)
    requires Reaches(p, e0, w, e, ok) && WellFormed(w.ctx) && Lookup(e, AmountsOf) == Amounts(w.ctx)
    requires ok ==> |w.ctx.spent| == 4
    ensures Reaches(BackingCalls(p), e0, w, Bind(e, Anon, LE(Sum3(w.ctx), 8)), ok)
  {
    hide Reaches, SliceCalls, FixedWidthCalls, Amounts, LE, Val, Minimal;
    var c := w.ctx;
    var a, b, d := LE(Value(c, 0), 8), LE(Value(c, 1), 8), LE(Value(c, 2), 8);
    var p1 := SliceCalls(p, AmountsOf, 0, 8);
    var p2 := SliceCalls(p1, AmountsOf, 8, 8);
    var s := Minimal(Val(a) + Val(b));
    var p3, e3 := Then2(p2, OP_ADD), Bind(e, Anon, s);
    var p4 := SliceCalls(p3, AmountsOf, 16, 8);
    var u := Minimal(Val(s) + Val(d));
    LookupBind(e, Anon, a, AmountsOf);
    LookupBind(e, Anon, s, AmountsOf);
    ValueStep(p, 0, e0, w, e, ok);
    ValueStep(p1, 1, e0, w, Bind(e, Anon, a), ok);
    AddStep(p2, e0, w, e, a, b, ok);
    ValueStep(p3, 2, e0, w, e3, ok);
    AddStep(p4, e0, w, e, s, d, ok);
    FixedWidthStep(Then2(p4, OP_ADD), 8, e0, w, Bind(e, Anon, u), ok);
    Restate(BackingCalls(p), e0, w, Bind(e, Anon, LE(Val(u), 8)), ok, Bind(e, Anon, LE(Sum3(c), 8)), ok);
  }

  lemma AddStep(q: Prog, e0: Env, w: World, e: Env, a: bytes, b: bytes, ok: bool)
    requires Reaches(q, e0, w, Bind(Bind(e, Anon, a), Anon, b), ok)
    ensures var s := Minimal(Val(a) + Val(b));
            Reaches(Then2(q, OP_ADD), e0, w, Bind(e, Anon, s), ok) && Val(s) == Val(a) + Val(b)
  {
    hide Reaches, Minimal;
    JoinStep(q, OP_ADD, e0, w, Bind(Bind(e, Anon, a), Anon, b), ok);
    MinimalVal(Val(a) + Val(b));
  }

  lemma SubStep(q: Prog, e0: Env, w: World, e: Env, a: bytes, b: bytes, ok: bool)
    requires Reaches(q, e0, w, Bind(Bind(e, Anon, a), Anon, b), ok)
    ensures var s := if Val(b) <= Val(a) then Minimal(Val(a) - Val(b)) else [];
            && Reaches(Then2(q, OP_SUB), e0, w, Bind(e, Anon, s), ok && Val(b) <= Val(a))
            && Val(s) == if Val(b) <= Val(a) then Val(a) - Val(b) else 0
  {
    hide Reaches, Minimal;
    JoinStep(q, OP_SUB, e0, w, Bind(Bind(e, Anon, a), Anon, b), ok);
    if Val(b) <= Val(a) {
      MinimalVal(Val(a) - Val(b));
    }
  }

  // ---------- output encodings ----------

  /** The sponsor's change: its coin less the fee and the caboose. */
  function ChangeCalls(p: Prog, k: nat, t: Terms): Prog {
    LessCalls(SliceCalls(p, AmountsOf, 8 * k, 8), SPONSORED, t.sponsor)
  }

  /** The amount on top less a constant, as an output paying `spk`. */
  function LessCalls(p: Prog, less: nat, spk: bytes): Prog {
    SuffixCalls(SuffixCalls(FixedWidthCalls(Then2(Then(p, Number(less)), OP_SUB), 8), [0x22]), spk)
  }

  method SponsorChange(b: Builder, k: nat, t: Terms)
    requires b.Valid() && AmountsOf in b.names
    modifies b
    ensures b.Valid() && b.names == old(b.names) + [Anon]
    ensures b.at == old(b.at).(prog := ChangeCalls(old(b.at).prog, k, t))
  {
    b.Slice(AmountsOf, 8 * k, 8);
    b.Number(SPONSORED);
    b.Op(OP_SUB, 2, 1);
    assert b.names == old(b.names) + [Anon];
    b.FixedWidth(8);
    SuffixTop(b, [0x22]);
    SuffixTop(b, t.sponsor);
    assert b.names == old(b.names) + [Anon];
  }

  method SuffixTop(b: Builder, x: bytes)
    requires b.Valid() && b.names != []
    modifies b
    ensures b.Valid() && b.names == old(b.names)[..|old(b.names)| - 1] + [Anon]
    ensures b.at == old(b.at).(prog := SuffixCalls(old(b.at).prog, x))
  {
    b.Push(x);
    b.Cat();
  }

  method AppendTop(b: Builder, n: Name)
    requires b.Valid() && b.names != [] && n in b.names
    modifies b
    ensures b.Valid() && b.names == old(b.names)[..|old(b.names)| - 1] + [Anon]
    ensures b.at == old(b.at).(prog := AppendCalls(old(b.at).prog, n))
  {
    b.Get(n);
    b.Cat();
  }

  lemma ChangeStep(p: Prog, k: nat, t: Terms, e0: Env, w: World, e: Env, ok: bool)
    requires Reaches(p, e0, w, e, ok) && WellFormed(w.ctx) && Lookup(e, AmountsOf) == Amounts(w.ctx)
    requires ok ==> k < |w.ctx.spent|
    ensures Reaches(ChangeCalls(p, k, t), e0, w, Bind(e, Anon, OutBytes(Change(w.ctx, k), t.sponsor)),
                    ok && Value(w.ctx, k) >= SPONSORED)
  {
    hide Reaches, SliceCalls, LessCalls, Amounts, LE, Val, WellFormed, OutBytes, Value, Excess, Lookup, Pow256, Eval;
    hide Concat;
    var v := LE(Value(w.ctx, k), 8);
    var q := SliceCalls(p, AmountsOf, 8 * k, 8);
    ValueStep(p, k, e0, w, e, ok);
    LessStep(q, SPONSORED, t.sponsor, e0, w, e, v, ok, Value(w.ctx, k));
  }

  lemma LessStep(p: Prog, less: nat, spk: bytes, e0: Env, w: World, e: Env, v: bytes, ok: bool, n: nat)
    requires Reaches(p, e0, w, Bind(e, Anon, v), ok) && (ok ==> Val(v) == n)
    ensures Reaches(LessCalls(p, less, spk), e0, w, Bind(e, Anon, OutBytes(Excess(n, less), spk)), ok && n >= less)
  {
    hide Reaches, FixedWidthCalls, SuffixCalls, LE, SignedNum, Val, Minimal;
    var m := SignedNum(less);
    var p1, e1 := Then(p, Number(less)), Bind(e, Anon, v);
    NumberStep(p, less, e0, w, e1, ok);
    SubStep(p1, e0, w, e, v, m, ok);
    var d := if Val(m) <= Val(v) then Minimal(Val(v) - Val(m)) else [];
    var p2, k := Then2(p1, OP_SUB), ok && n >= less;
    var p3, x := FixedWidthCalls(p2, 8), LE(Val(d), 8);
    FixedWidthStep(p2, 8, e0, w, Bind(e, Anon, d), k);
    Restate(p3, e0, w, Bind(e, Anon, x), k, Bind(e, Anon, LE(Excess(n, less), 8)), k);
    PayStep(p3, spk, e0, w, e, Excess(n, less), k);
  }

  lemma PayStep(p: Prog, spk: bytes, e0: Env, w: World, e: Env, n: nat, ok: bool)
    requires Reaches(p, e0, w, Bind(e, Anon, LE(n, 8)), ok)
    ensures Reaches(SuffixCalls(SuffixCalls(p, [0x22]), spk), e0, w, Bind(e, Anon, OutBytes(n, spk)), ok)
  {
    hide Reaches, SuffixCalls, LE;
    SuffixStep(p, [0x22], e0, w, Bind(e, Anon, LE(n, 8)), ok);
    SuffixStep(SuffixCalls(p, [0x22]), spk, e0, w, Bind(e, Anon, LE(n, 8) + [0x22]), ok);
  }

  lemma OutEncoding(amount: nat, spk: bytes)
    requires |spk| == 34
    ensures EncodeOut(TxOut(amount, spk)) == OutBytes(amount, spk) && |OutBytes(amount, spk)| == 43
  {
    hide LE;
  }

  /** The caboose output and the comparison with the actual outputs. */
  function FinishOutputsCalls(p: Prog): Prog {
    EqualVerify(Then(TxCalls(Then(AppendCalls(SuffixCalls(p, LE(CABOOSE_VALUE, 8) + [0x22]), NewCaboose),
      Rename(ExpectedOutputs)), OUTPUTS), Get(ExpectedOutputs)))
  }

  method FinishOutputs(b: Builder)
    requires b.Valid() && NewCaboose in b.names && b.names[|b.names| - 1] == Anon
    modifies b
    ensures b.Valid() && b.names == old(b.names)[..|old(b.names)| - 1] + [ExpectedOutputs]
    ensures b.at == old(b.at).(prog := FinishOutputsCalls(old(b.at).prog))
  {
    assert b.names == b.names[..|b.names| - 1] + [Anon];
    SuffixTop(b, LE(CABOOSE_VALUE, 8) + [0x22]);
    AppendTop(b, NewCaboose);
    b.SetName(ExpectedOutputs);
    b.Tx(OUTPUTS);
    b.Get(ExpectedOutputs);
    b.Op(OP_EQUALVERIFY, 2, 0);
    assert b.names == old(b.names)[..|old(b.names)| - 1] + [ExpectedOutputs];
  }

  lemma FinishOutputsStep(p: Prog, e0: Env, w: World, e: Env, v: bytes, ok: bool)
    requires Reaches(p, e0, w, Bind(e, Anon, v), ok)
    ensures var x := v + (LE(CABOOSE_VALUE, 8) + [0x22]) + Lookup(e, NewCaboose);
            Reaches(FinishOutputsCalls(p), e0, w, Bind(e, ExpectedOutputs, x),
                    ok && Concat(EncodeOut, w.ctx.tx.outputs) == x)
  {
    hide Reaches, SuffixCalls, AppendCalls, TxCalls, TxField, Lookup, LE;
    TxFields(w.ctx);
    var s := LE(CABOOSE_VALUE, 8) + [0x22];
    var x, o := v + s + Lookup(e, NewCaboose), Concat(EncodeOut, w.ctx.tx.outputs);
    var p1 := SuffixCalls(p, s);
    var p2 := AppendCalls(p1, NewCaboose);
    var p3, e3 := Then(p2, Rename(ExpectedOutputs)), Bind(e, ExpectedOutputs, x);
    SuffixStep(p, s, e0, w, Bind(e, Anon, v), ok);
    AppendStep(p1, NewCaboose, e0, w, Bind(e, Anon, v + s), ok);
    NameStep(p2, ExpectedOutputs, e0, w, Bind(e, Anon, x), ok);
    TxStep(p3, OUTPUTS, e0, w, e3, ok);
    GetStep(TxCalls(p3, OUTPUTS), ExpectedOutputs, e0, w, Bind(e3, Anon, o), ok);
    LookupBind(e3, Anon, o, ExpectedOutputs);
    LookupBind(e, ExpectedOutputs, x, ExpectedOutputs);
    EqualStep(Then(TxCalls(p3, OUTPUTS), Get(ExpectedOutputs)), e0, w, Bind(Bind(e3, Anon, o), Anon, x), ok);
  }

  // ---------- a collection's outputs ----------

  function CollectionPartsCalls(p: Prog, t: Terms): Prog {
    Then2(ChangeCalls(AppendCalls(SuffixCalls(BackingCalls(p), [0x22]), ProgramSpk), 3, t), OP_CAT)
  }

  function CollectionOutputsCalls(p: Prog, t: Terms): Prog {
    FinishOutputsCalls(CollectionPartsCalls(MakeCabooseCalls(p, NewState, NewCaboose), t))
  }

  method ExpectedCollectionOutputs(b: Builder, t: Terms)
    requires b.Valid() && NewState in b.names && AmountsOf in b.names && ProgramSpk in b.names
    modifies b
    ensures b.Valid() && b.names == old(b.names) + [NewCaboose, ExpectedOutputs]
    ensures b.at == old(b.at).(prog := CollectionOutputsCalls(old(b.at).prog, t))
  {
    hide MakeCabooseCalls, CollectionPartsCalls, FinishOutputsCalls;
    MakeCaboose(b, NewState, NewCaboose);
    CollectionParts(b, t);
    FinishOutputs(b);
    assert b.names == old(b.names) + [NewCaboose, ExpectedOutputs];
  }

  method CollectionParts(b: Builder, t: Terms)
    requires b.Valid() && AmountsOf in b.names && ProgramSpk in b.names
    modifies b
    ensures b.Valid() && b.names == old(b.names) + [Anon]
    ensures b.at == old(b.at).(prog := CollectionPartsCalls(old(b.at).prog, t))
  {
    hide BackingCalls, SuffixCalls, AppendCalls, ChangeCalls;
    CalculatedBacking(b);
    SuffixTop(b, [0x22]);
    assert b.names == old(b.names) + [Anon];
    AppendTop(b, ProgramSpk);
    assert b.names == old(b.names) + [Anon];
    SponsorChange(b, 3, t);
    b.Cat();
    assert b.names == old(b.names) + [Anon];
  }

  function CollectionOutputBytes(t: Terms, c: Context, caboose: bytes): bytes {
    OutBytes(Sum3(c), SpkOf(c)) + OutBytes(Change(c, 3), t.sponsor) + (LE(CABOOSE_VALUE, 8) + [0x22]) + caboose
  }

  /** Bindings after the outputs are checked. */
  function Checked(e: Env, caboose: bytes, outputs: bytes): Env {
    Bind(Bind(e, NewCaboose, caboose), ExpectedOutputs, outputs)
  }

  lemma SuccessorStep(p: Prog, e0: Env, w: World, e: Env, ok: bool)
    requires Reaches(p, e0, w, e, ok) && WellFormed(w.ctx) && (ok ==> |w.ctx.spent| == 4)
    requires Lookup(e, AmountsOf) == Amounts(w.ctx) && Lookup(e, ProgramSpk) == SpkOf(w.ctx)
    ensures Reaches(AppendCalls(SuffixCalls(BackingCalls(p), [0x22]), ProgramSpk), e0, w,
                    Bind(e, Anon, OutBytes(Sum3(w.ctx), SpkOf(w.ctx))), ok)
  {
    hide Reaches, BackingCalls, WellFormed, Lookup, Amounts, SpkOf, Sum3, LE;
    BackingStep(p, e0, w, e, ok);
    PayNamedStep(BackingCalls(p), ProgramSpk, e0, w, e, Sum3(w.ctx), ok);
  }

  lemma PayNamedStep(p: Prog, spk: Name, e0: Env, w: World, e: Env, n: nat, ok: bool)
    requires Reaches(p, e0, w, Bind(e, Anon, LE(n, 8)), ok) && spk != Anon
    ensures Reaches(AppendCalls(SuffixCalls(p, [0x22]), spk), e0, w, Bind(e, Anon, OutBytes(n, Lookup(e, spk))), ok)
  {
    hide Reaches, SuffixCalls, AppendCalls, LE, Lookup;
    SuffixStep(p, [0x22], e0, w, Bind(e, Anon, LE(n, 8)), ok);
    AppendStep(SuffixCalls(p, [0x22]), spk, e0, w, Bind(e, Anon, LE(n, 8) + [0x22]), ok);
  }

  lemma CollectionPartsStep(p: Prog, t: Terms, e0: Env, w: World, e: Env, ok: bool)
    requires Reaches(p, e0, w, e, ok) && WellFormed(w.ctx) && (ok ==> |w.ctx.spent| == 4)
    requires Lookup(e, AmountsOf) == Amounts(w.ctx) && Lookup(e, ProgramSpk) == SpkOf(w.ctx)
    ensures Reaches(CollectionPartsCalls(p, t), e0, w,
                    Bind(e, Anon, OutBytes(Sum3(w.ctx), SpkOf(w.ctx)) + OutBytes(Change(w.ctx, 3), t.sponsor)),
                    ok && Value(w.ctx, 3) >= SPONSORED)
  {
    hide Reaches, BackingCalls, SuffixCalls, AppendCalls, ChangeCalls, Lookup, Amounts, SpkOf, Sum3, Change, Value;
    hide WellFormed, OutBytes;
    var c := w.ctx;
    var p1 := AppendCalls(SuffixCalls(BackingCalls(p), [0x22]), ProgramSpk);
    var a, d := OutBytes(Sum3(c), SpkOf(c)), OutBytes(Change(c, 3), t.sponsor);
    LookupBind(e, Anon, a, AmountsOf);
    SuccessorStep(p, e0, w, e, ok);
    ChangeStep(p1, 3, t, e0, w, Bind(e, Anon, a), ok);
    CatStep(ChangeCalls(p1, 3, t), e0, w, Bind(Bind(e, Anon, a), Anon, d), ok && Value(c, 3) >= SPONSORED);
  }

  lemma CollectionOutputsRaw(p: Prog, t: Terms, e0: Env, w: World, e: Env, ok: bool, x: Claim)
    requires Reaches(p, e0, w, e, ok) && WellFormed(w.ctx) && Shows(e, w.ctx, x)
    requires ok ==> |w.ctx.spent| == 4
    ensures var caboose := CabooseSpk(w.sha, x.newState);
            var outs := CollectionOutputBytes(t, w.ctx, caboose);
            Reaches(CollectionOutputsCalls(p, t), e0, w, Checked(e, caboose, outs),
                    ok && Value(w.ctx, 3) >= SPONSORED && Concat(EncodeOut, w.ctx.tx.outputs) == outs)
  {
    hide Reaches, MakeCabooseCalls, CollectionPartsCalls, FinishOutputsCalls, WellFormed, OutBytes;
    hide CabooseSpk, Shows, LE, Lookup, Amounts, SpkOf, Sum3, Change, Value, Concat;
    var c, caboose := w.ctx, CabooseSpk(w.sha, x.newState);
    ShownForOutputs(e, c, x);
    var p1, e1 := MakeCabooseCalls(p, NewState, NewCaboose), Bind(e, NewCaboose, caboose);
    LookupBind(e, NewCaboose, caboose, AmountsOf);
    LookupBind(e, NewCaboose, caboose, ProgramSpk);
    LookupBind(e, NewCaboose, caboose, NewCaboose);
    MakeCabooseStep(p, NewState, NewCaboose, e0, w, e, ok);
    CollectionPartsStep(p1, t, e0, w, e1, ok);
    FinishOutputsStep(CollectionPartsCalls(p1, t), e0, w, e1,
                      OutBytes(Sum3(c), SpkOf(c)) + OutBytes(Change(c, 3), t.sponsor), ok && Value(c, 3) >= SPONSORED);
  }

  lemma ShownForOutputs(e: Env, c: Context, x: Claim)
    requires Shows(e, c, x)
    ensures Lookup(e, NewState) == x.newState && Lookup(e, AmountsOf) == Amounts(c) && Lookup(e, ProgramSpk) == SpkOf(c)
    ensures Lookup(e, PublicValues) == x.values
  {
  }

  /** The value a `w`-byte field keeps of a number. */
  function Kept(n: nat): (m: nat)
    ensures m < U64
  {
    Pow256Values();
    ValBound(LE(n, 8));
    Val(LE(n, 8))
  }

  lemma KeptSmall(n: nat)
    requires n < U64
    ensures Kept(n) == n
  {
    Pow256Values();
    LEVal(n, 8);
  }

  lemma KeptEncodes(n: nat)
    ensures LE(Kept(n), 8) == LE(n, 8)
  {
    ValLE(LE(n, 8));
  }

  /** The outputs a collection must have. */
  function CollectionOutputs(t: Terms, c: Context, caboose: bytes): seq<TxOut> {
    [TxOut(Kept(Sum3(c)), SpkOf(c)), TxOut(Change(c, 3), t.sponsor), TxOut(CABOOSE_VALUE, caboose)]
  }

  lemma {:induction false} OutputsEqual(a: seq<TxOut>, b: seq<TxOut>)
    requires |a| == |b|
    requires forall i :: 0 <= i < |a| ==> a[i].WellFormed() && b[i].WellFormed()
    ensures Concat(EncodeOut, a) == Concat(EncodeOut, b) <==> a == b
  {
    if Concat(EncodeOut, a) == Concat(EncodeOut, b) {
      OutsPeel(a, b, [], []);
    }
  }

  lemma ConcatThree(a: TxOut, b: TxOut, c: TxOut)
    ensures Concat(EncodeOut, [a, b, c]) == EncodeOut(a) + EncodeOut(b) + EncodeOut(c)
  {
    assert [a, b, c] == [] + [a] + [b] + [c];
    assert Concat(EncodeOut, []) == [];
    ConcatSnoc(EncodeOut, [], a);
    ConcatSnoc(EncodeOut, [] + [a], b);
    ConcatSnoc(EncodeOut, [] + [a] + [b], c);
  }

  lemma CollectionOutputsMean(t: Terms, c: Context, caboose: bytes)
    requires WellFormed(c) && |SpkOf(c)| == 34 && |t.sponsor| == 34 && |caboose| == 34 && |c.tx.outputs| == 3
    ensures Concat(EncodeOut, c.tx.outputs) == CollectionOutputBytes(t, c, caboose) <==>
            c.tx.outputs == CollectionOutputs(t, c, caboose)
  {
    hide LE, Kept, SpkOf;
    var o := CollectionOutputs(t, c, caboose);
    KeptEncodes(Sum3(c));
    OutEncoding(o[0].amount, o[0].spk);
    OutEncoding(o[1].amount, o[1].spk);
    OutEncoding(o[2].amount, o[2].spk);
    ConcatThree(o[0], o[1], o[2]);
    assert EncodeOut(o[0]) + EncodeOut(o[1]) + EncodeOut(o[2]) == CollectionOutputBytes(t, c, caboose);
    OutputsEqual(c.tx.outputs, o);
  }

  /** The output checks of a collection accept exactly the rebuilt outputs. */
  lemma CollectionOutputsStep(p: Prog, t: Terms, e0: Env, w: World, e: Env, ok: bool, x: Claim)
    requires Reaches(p, e0, w, e, ok) && WellFormed(w.ctx) && Shows(e, w.ctx, x) && t.Valid()
    requires ok ==> |w.ctx.spent| == 4 && |w.ctx.tx.outputs| == 3 && |SpkOf(w.ctx)| == 34
    ensures var caboose := CabooseSpk(w.sha, x.newState);
            Reaches(CollectionOutputsCalls(p, t), e0, w, Checked(e, caboose, CollectionOutputBytes(t, w.ctx, caboose)),
                    ok && Value(w.ctx, 3) >= SPONSORED && w.ctx.tx.outputs == CollectionOutputs(t, w.ctx, caboose))
  {
    hide Reaches, CollectionOutputsCalls, CollectionOutputBytes, CollectionOutputs, Checked, Shows, SpkOf, Concat;
    hide Value;
    CollectionOutputsRaw(p, t, e0, w, e, ok, x);
    CabooseLength(w.sha, x.newState);
    if ok {
      CollectionOutputsMean(t, w.ctx, CabooseSpk(w.sha, x.newState));
    }
  }

  // ---------- a settlement's outputs ----------

  /** What the statement says leaves the bridge, wherever the bytes end. */
  function PaidBytes(w: World, x: Claim): Option<bytes> { Substr(w, x.values, 277, 8) }

  function DestinationBytes(w: World, x: Claim): Option<bytes> { Substr(w, x.values, 286, 34) }

  function Paid(w: World, x: Claim): nat { Val(Got(PaidBytes(w, x))) }

  /** The head's amount less the payout. */
  function RemainingCalls(p: Prog): Prog {
    FixedWidthCalls(Then2(SliceCalls(SliceCalls(p, AmountsOf, 0, 8), PublicValues, 277, 8), OP_SUB), 8)
  }

  method RemainingBacking(b: Builder)
    requires b.Valid() && AmountsOf in b.names && PublicValues in b.names
    modifies b
    ensures b.Valid() && b.names == old(b.names) + [Anon]
    ensures b.at == old(b.at).(prog := RemainingCalls(old(b.at).prog))
  {
    b.Slice(AmountsOf, 0, 8);
    b.Slice(PublicValues, 277, 8);
    b.Op(OP_SUB, 2, 1);
    assert b.names == old(b.names) + [Anon];
    b.FixedWidth(8);
  }

  lemma RemainingStep(p: Prog, e0: Env, w: World, e: Env, ok: bool, x: Claim)
    requires Reaches(p, e0, w, e, ok) && WellFormed(w.ctx) && (ok ==> |w.ctx.spent| > 0)
    requires Lookup(e, AmountsOf) == Amounts(w.ctx) && Lookup(e, PublicValues) == x.values
    ensures Reaches(RemainingCalls(p), e0, w, Bind(e, Anon, LE(Excess(Value(w.ctx, 0), Paid(w, x)), 8)),
                    ok && PaidBytes(w, x).Some? && Paid(w, x) <= Value(w.ctx, 0))
  {
    hide Reaches, SliceCalls, FixedWidthCalls, Amounts, LE, Val, Minimal, Lookup, Substr, WellFormed, Value;
    var a, b := LE(Value(w.ctx, 0), 8), Got(PaidBytes(w, x));
    var p1 := SliceCalls(p, AmountsOf, 0, 8);
    var p2, k2 := SliceCalls(p1, PublicValues, 277, 8), ok && PaidBytes(w, x).Some?;
    ValueStep(p, 0, e0, w, e, ok);
    LookupBind(e, Anon, a, PublicValues);
    SliceStep(p1, PublicValues, 277, 8, e0, w, Bind(e, Anon, a), ok);
    SubStep(p2, e0, w, e, a, b, k2);
    var d := if Val(b) <= Val(a) then Minimal(Val(a) - Val(b)) else [];
    FixedWidthStep(Then2(p2, OP_SUB), 8, e0, w, Bind(e, Anon, d), k2 && Val(b) <= Val(a));
    Restate(RemainingCalls(p), e0, w, Bind(e, Anon, LE(Val(d), 8)), k2 && Val(b) <= Val(a),
            Bind(e, Anon, LE(Excess(Value(w.ctx, 0), Paid(w, x)), 8)), k2 && Paid(w, x) <= Value(w.ctx, 0));
  }

  /** The payout as the statement spells it. */
  function PayoutCalls(p: Prog): Prog {
    Then2(SliceCalls(SuffixCalls(SliceCalls(p, PublicValues, 277, 8), [0x22]), PublicValues, 286, 34), OP_CAT)
  }

  method PayoutOutput(b: Builder)
    requires b.Valid() && PublicValues in b.names
    modifies b
    ensures b.Valid() && b.names == old(b.names) + [Anon]
    ensures b.at == old(b.at).(prog := PayoutCalls(old(b.at).prog))
  {
    b.Slice(PublicValues, 277, 8);
    SuffixTop(b, [0x22]);
    assert b.names == old(b.names) + [Anon];
    b.Slice(PublicValues, 286, 34);
    b.Cat();
    assert b.names == old(b.names) + [Anon];
  }

  function PayoutBytes(w: World, x: Claim): bytes { Got(PaidBytes(w, x)) + [0x22] + Got(DestinationBytes(w, x)) }

  predicate PayoutRead(w: World, x: Claim) { PaidBytes(w, x).Some? && DestinationBytes(w, x).Some? }

  lemma PayoutStep(p: Prog, e0: Env, w: World, e: Env, ok: bool, x: Claim)
    requires Reaches(p, e0, w, e, ok) && Lookup(e, PublicValues) == x.values
    ensures Reaches(PayoutCalls(p), e0, w, Bind(e, Anon, PayoutBytes(w, x)), ok && PayoutRead(w, x))
  {
    hide Reaches, SliceCalls, SuffixCalls, Substr, Lookup;
    var a, b := Got(PaidBytes(w, x)), Got(DestinationBytes(w, x));
    var p1, k1 := SliceCalls(p, PublicValues, 277, 8), ok && PaidBytes(w, x).Some?;
    var p2 := SuffixCalls(p1, [0x22]);
    SliceStep(p, PublicValues, 277, 8, e0, w, e, ok);
    SuffixStep(p1, [0x22], e0, w, Bind(e, Anon, a), k1);
    LookupBind(e, Anon, a + [0x22], PublicValues);
    SliceStep(p2, PublicValues, 286, 34, e0, w, Bind(e, Anon, a + [0x22]), k1);
    CatStep(SliceCalls(p2, PublicValues, 286, 34), e0, w, Bind(Bind(e, Anon, a + [0x22]), Anon, b),
            k1 && DestinationBytes(w, x).Some?);
  }

  function SettlementPartsCalls(p: Prog, t: Terms): Prog {
    Then2(ChangeCalls(Then2(PayoutCalls(AppendCalls(SuffixCalls(RemainingCalls(p), [0x22]), ProgramSpk)), OP_CAT), 1,
                      t), OP_CAT)
  }

  function SettlementOutputsCalls(p: Prog, t: Terms): Prog {
    FinishOutputsCalls(SettlementPartsCalls(MakeCabooseCalls(p, NewState, NewCaboose), t))
  }

  method ExpectedSettlementOutputs(b: Builder, t: Terms)
    requires b.Valid() && {NewState, AmountsOf, ProgramSpk, PublicValues} <= (set n | n in b.names)
    modifies b
    ensures b.Valid() && b.names == old(b.names) + [NewCaboose, ExpectedOutputs]
    ensures b.at == old(b.at).(prog := SettlementOutputsCalls(old(b.at).prog, t))
  {
    hide MakeCabooseCalls, RemainingCalls, SuffixCalls, AppendCalls, ChangeCalls, FinishOutputsCalls, PayoutCalls;
    MakeCaboose(b, NewState, NewCaboose);
    SettlementParts(b, t);
    FinishOutputs(b);
    assert b.names == old(b.names) + [NewCaboose, ExpectedOutputs];
  }

  method SettlementParts(b: Builder, t: Terms)
    requires b.Valid() && {AmountsOf, ProgramSpk, PublicValues} <= (set n | n in b.names)
    modifies b
    ensures b.Valid() && b.names == old(b.names) + [Anon]
    ensures b.at == old(b.at).(prog := SettlementPartsCalls(old(b.at).prog, t))
  {
    hide RemainingCalls, SuffixCalls, AppendCalls, ChangeCalls, PayoutCalls;
    RemainingBacking(b);
    SuffixTop(b, [0x22]);
    assert b.names == old(b.names) + [Anon];
    AppendTop(b, ProgramSpk);
    assert b.names == old(b.names) + [Anon];
    PayoutOutput(b);
    b.Cat();
    assert b.names == old(b.names) + [Anon];
    SponsorChange(b, 1, t);
    b.Cat();
    assert b.names == old(b.names) + [Anon];
  }

  function SettlementPartBytes(t: Terms, w: World, x: Claim): bytes {
    OutBytes(Excess(Value(w.ctx, 0), Paid(w, x)), SpkOf(w.ctx)) + PayoutBytes(w, x)
      + OutBytes(Change(w.ctx, 1), t.sponsor)
  }

  predicate SettlementAmounts(w: World, x: Claim) {
    PayoutRead(w, x) && Paid(w, x) <= Value(w.ctx, 0) && Value(w.ctx, 1) >= SPONSORED
  }

  lemma SettlementPartsStep(p: Prog, t: Terms, e0: Env, w: World, e: Env, ok: bool, x: Claim)
    requires Reaches(p, e0, w, e, ok) && WellFormed(w.ctx) && (ok ==> |w.ctx.spent| == 2)
    requires Lookup(e, AmountsOf) == Amounts(w.ctx) && Lookup(e, ProgramSpk) == SpkOf(w.ctx)
    requires Lookup(e, PublicValues) == x.values
    ensures Reaches(SettlementPartsCalls(p, t), e0, w, Bind(e, Anon, SettlementPartBytes(t, w, x)),
                    ok && SettlementAmounts(w, x))
  {
    hide Reaches, RemainingCalls, SuffixCalls, AppendCalls, ChangeCalls, PayoutCalls, Lookup, Amounts, SpkOf, Change;
    hide Value;
    hide WellFormed, OutBytes, PayoutBytes, Excess, Paid, PaidBytes, DestinationBytes;
    var c := w.ctx;
    var n := Excess(Value(c, 0), Paid(w, x));
    var a, b, d := OutBytes(n, SpkOf(c)), PayoutBytes(w, x), OutBytes(Change(c, 1), t.sponsor);
    var p0, k0 := RemainingCalls(p), ok && PaidBytes(w, x).Some? && Paid(w, x) <= Value(c, 0);
    var p1 := AppendCalls(SuffixCalls(p0, [0x22]), ProgramSpk);
    var p2, k2 := Then2(PayoutCalls(p1), OP_CAT), k0 && PayoutRead(w, x);
    RemainingStep(p, e0, w, e, ok, x);
    PayNamedStep(p0, ProgramSpk, e0, w, e, n, k0);
    LookupBind(e, Anon, a, PublicValues);
    PayoutStep(p1, e0, w, Bind(e, Anon, a), k0, x);
    CatStep(PayoutCalls(p1), e0, w, Bind(Bind(e, Anon, a), Anon, b), k2);
    LookupBind(e, Anon, a + b, AmountsOf);
    ChangeStep(p2, 1, t, e0, w, Bind(e, Anon, a + b), k2);
    CatStep(ChangeCalls(p2, 1, t), e0, w, Bind(Bind(e, Anon, a + b), Anon, d), k2 && Value(c, 1) >= SPONSORED);
  }

  function SettlementOutputBytes(t: Terms, w: World, x: Claim, caboose: bytes): bytes {
    SettlementPartBytes(t, w, x) + (LE(CABOOSE_VALUE, 8) + [0x22]) + caboose
  }

  lemma SettlementOutputsRaw(p: Prog, t: Terms, e0: Env, w: World, e: Env, ok: bool, x: Claim)
    requires Reaches(p, e0, w, e, ok) && WellFormed(w.ctx) && Shows(e, w.ctx, x)
    requires ok ==> |w.ctx.spent| == 2
    ensures var caboose := CabooseSpk(w.sha, x.newState);
            var outs := SettlementOutputBytes(t, w, x, caboose);
            Reaches(SettlementOutputsCalls(p, t), e0, w, Checked(e, caboose, outs),
                    ok && SettlementAmounts(w, x) && Concat(EncodeOut, w.ctx.tx.outputs) == outs)
  {
    hide Reaches, MakeCabooseCalls, SettlementPartsCalls, FinishOutputsCalls, WellFormed, SettlementPartBytes;
    hide SettlementAmounts;
    hide CabooseSpk, Shows, LE, Lookup, Amounts, SpkOf, Concat;
    var c, caboose := w.ctx, CabooseSpk(w.sha, x.newState);
    ShownForOutputs(e, c, x);
    var p1, e1 := MakeCabooseCalls(p, NewState, NewCaboose), Bind(e, NewCaboose, caboose);
    LookupBind(e, NewCaboose, caboose, AmountsOf);
    LookupBind(e, NewCaboose, caboose, ProgramSpk);
    LookupBind(e, NewCaboose, caboose, PublicValues);
    LookupBind(e, NewCaboose, caboose, NewCaboose);
    MakeCabooseStep(p, NewState, NewCaboose, e0, w, e, ok);
    SettlementPartsStep(p1, t, e0, w, e1, ok, x);
    FinishOutputsStep(SettlementPartsCalls(p1, t), e0, w, e1, SettlementPartBytes(t, w, x),
                      ok && SettlementAmounts(w, x));
  }

  /** The payout a settlement statement names. */
  function Payout(values: bytes): TxOut
    requires |values| == 320
  {
    TxOut(Val(values[277..285]), values[286..320])
  }

  /** The outputs a settlement must have. */
  function SettlementOutputs(t: Terms, c: Context, values: bytes, caboose: bytes): seq<TxOut>
    requires |values| == 320
  {
    [TxOut(Excess(Value(c, 0), Payout(values).amount), SpkOf(c)), Payout(values), TxOut(Change(c, 1), t.sponsor),
     TxOut(CABOOSE_VALUE, caboose)]
  }

  lemma ConcatFour(a: TxOut, b: TxOut, c: TxOut, d: TxOut)
    ensures Concat(EncodeOut, [a, b, c, d]) == EncodeOut(a) + EncodeOut(b) + EncodeOut(c) + EncodeOut(d)
  {
    assert [a, b, c, d] == [a, b, c] + [d];
    ConcatThree(a, b, c);
    ConcatSnoc(EncodeOut, [a, b, c], d);
  }

  /** Once the statement has its full length, the raw comparison fixes all four outputs. */
  lemma SettlementOutputsMean(t: Terms, w: World, x: Claim, caboose: bytes)
    requires WellFormed(w.ctx) && |SpkOf(w.ctx)| == 34 && |t.sponsor| == 34 && |caboose| == 34
             && |w.ctx.tx.outputs| == 4
    requires |x.values| == 320
    ensures PayoutRead(w, x) && Paid(w, x) == Payout(x.values).amount
    ensures Concat(EncodeOut, w.ctx.tx.outputs) == SettlementOutputBytes(t, w, x, caboose) <==>
            w.ctx.tx.outputs == SettlementOutputs(t, w.ctx, x.values, caboose)
  {
    hide LE, SpkOf, OutBytes, Val;
    var o := SettlementOutputs(t, w.ctx, x.values, caboose);
    var pay := x.values[277..285];
    PayoutIs(w, x);
    OutEncoding(o[0].amount, o[0].spk);
    OutEncoding(o[1].amount, o[1].spk);
    OutEncoding(o[2].amount, o[2].spk);
    OutEncoding(o[3].amount, o[3].spk);
    ConcatFour(o[0], o[1], o[2], o[3]);
    ValBound(pay);
    Pow256Values();
    CabooseOut(caboose);
    assert EncodeOut(o[0]) + EncodeOut(o[1]) + EncodeOut(o[2]) + EncodeOut(o[3])
        == SettlementOutputBytes(t, w, x, caboose);
    OutputsEqual(w.ctx.tx.outputs, o);
  }

  lemma CabooseOut(caboose: bytes)
    ensures OutBytes(CABOOSE_VALUE, caboose) == LE(CABOOSE_VALUE, 8) + [0x22] + caboose
  {
  }

  lemma PayoutIs(w: World, x: Claim)
    requires |x.values| == 320
    ensures PayoutRead(w, x) && PayoutBytes(w, x) == OutBytes(Payout(x.values).amount, Payout(x.values).spk)
    ensures Paid(w, x) == Payout(x.values).amount
  {
    ValLE(x.values[277..285]);
  }
}
