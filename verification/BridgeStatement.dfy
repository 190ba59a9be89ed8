// How the bridge programs bind the proof: the statement bytes to this transaction, and their digest to the second
// public input on the verifier's base stack.
module BridgeStatement {
  import opened Bytes
  import opened Transactions
  import opened Statements
  import opened Script
  import opened Building
  import opened Calls
  import opened BuilderClass
  import opened TxContext
  import opened Linearization
  import opened Deposit
  import opened BridgeHead
  import opened BridgeOutputs
  import opened BridgeDeposits

  // ---------- header ----------

  function SliceIsNamedCalls(p: Prog, start: nat, length: nat, m: Name): Prog {
    EqualVerify(Then(SliceCalls(p, PublicValues, start, length), Get(m)))
  }

  function SlicesAgreeCalls(p: Prog, start: nat, m: Name, from: nat, length: nat): Prog {
    EqualVerify(SliceCalls(SliceCalls(p, PublicValues, start, length), m, from, length))
  }

  function HeaderCalls(p: Prog, size: nat, action: byte): Prog {
    SlicesAgreeCalls(SlicesAgreeCalls(SliceIsNamedCalls(SlicesAgreeCalls(SliceIsNamedCalls(
      EqualSliceCalls(RequireSizeCalls(p, PublicValues, size), PublicValues, 0, Marker(action)),
      33, 32, BridgeId), 65, PrevoutsOf, 0, 36), 101, 32, OldRoot), 133, NewState, 41, 32), 165, AmountsOf, 0, 8)
  }

  method SlicesAgree(b: Builder, start: nat, m: Name, from: nat, length: nat)
    requires b.Valid() && PublicValues in b.names && m in b.names
    modifies b
    ensures b.Valid() && b.names == old(b.names)
    ensures b.at == old(b.at).(prog := SlicesAgreeCalls(old(b.at).prog, start, m, from, length))
  {
    b.Slice(PublicValues, start, length);
    b.Slice(m, from, length);
    b.Op(OP_EQUALVERIFY, 2, 0);
    assert b.names == old(b.names);
  }

  method StatementHeader(b: Builder, size: nat, action: byte)
    requires b.Valid() && {PublicValues, BridgeId, PrevoutsOf, OldRoot, NewState, AmountsOf} <= (set n | n in b.names)
    modifies b
    ensures b.Valid() && b.names == old(b.names)
    ensures b.at == old(b.at).(prog := HeaderCalls(old(b.at).prog, size, action))
  {
    hide RequireSizeCalls, EqualSliceCalls, SliceCalls;
    b.RequireSize(PublicValues, size);
    b.EqualSlice(PublicValues, 0, Marker(action));
    CheckSliceIs(b, PublicValues, 33, 32, BridgeId);
    SlicesAgree(b, 65, PrevoutsOf, 0, 36);
    CheckSliceIs(b, PublicValues, 101, 32, OldRoot);
    SlicesAgree(b, 133, NewState, 41, 32);
    SlicesAgree(b, 165, AmountsOf, 0, 8);
  }

  /** The root in the new state. */
  function NewRoot(x: Claim): bytes { if |x.newState| == 73 then x.newState[41..73] else [] }

  /** What the header comparisons say of the statement bytes, all but the new backing. */
  predicate HeaderIs(v: bytes, action: byte, h: Header) {
    && At(v, 0, Marker(action)) && At(v, 33, h.bridgeId) && At(v, 65, h.prevout.Encode()) && At(v, 101, h.oldRoot)
    && At(v, 133, h.newRoot) && At(v, 165, LE(h.oldBacking, 8))
  }

  function PrevoutOf(c: Context, i: nat): OutPoint {
    if i < |c.tx.inputs| then c.tx.inputs[i].prevout else OutPoint(Zeros(32), 0)
  }

  /** The header this transaction and the authenticated states determine. */
  function HeaderFor(c: Context, x: Claim, newBacking: nat): Header {
    Header(x.bridgeId, PrevoutOf(c, 0), RootIn(x), NewRoot(x), Value(c, 0), newBacking)
  }

  /** What the statement checks rely on: the head has been authenticated. */
  predicate Authenticated(e: Env, c: Context, x: Claim) {
    && Ready(e, c, x) && Lookup(e, OldRoot) == RootIn(x) && |RootIn(x)| == 32 && |x.newState| == 73
  }

  predicate StatementShown(e: Env, c: Context, x: Claim) {
    && Lookup(e, PublicValues) == x.values && Lookup(e, BridgeId) == x.bridgeId && Lookup(e, PrevoutsOf) == Prevouts(c)
    && Lookup(e, OldRoot) == RootIn(x) && Lookup(e, NewState) == x.newState && Lookup(e, AmountsOf) == Amounts(c)
  }

  lemma HeaderRawStep(p: Prog, size: nat, action: byte, e0: Env, w: World, e: Env, ok: bool, x: Claim)
    requires Reaches(p, e0, w, e, ok) && size >= 181 && StatementShown(e, w.ctx, x)
    requires ok ==>
               && |x.bridgeId| == 32 && |RootIn(x)| == 32 && |x.newState| == 73
               && |Prevouts(w.ctx)| >= 36 && |Amounts(w.ctx)| >= 8
    ensures Reaches(HeaderCalls(p, size, action), e0, w, e,
                    && ok && |x.values| == size && At(x.values, 0, Marker(action)) && At(x.values, 33, x.bridgeId)
                    && At(x.values, 65, Prevouts(w.ctx)[0..36]) && At(x.values, 101, RootIn(x))
                    && At(x.values, 133, NewRoot(x))
                    && At(x.values, 165, Amounts(w.ctx)[0..8]))
  {
    hide Reaches, RequireSizeCalls, EqualSliceCalls, SliceCalls, At, Lookup, Prevouts, Amounts, RootIn;
    var v, c := x.values, w.ctx;
    var p1, k1 := RequireSizeCalls(p, PublicValues, size), ok && |v| == size;
    var p2, k2 := EqualSliceCalls(p1, PublicValues, 0, Marker(action)), k1 && At(v, 0, Marker(action));
    var p3, k3 := SliceIsNamedCalls(p2, 33, 32, BridgeId), k2 && At(v, 33, x.bridgeId);
    var p4, k4 := SlicesAgreeCalls(p3, 65, PrevoutsOf, 0, 36), k3 && At(v, 65, Prevouts(c)[0..36]);
    var p5, k5 := SliceIsNamedCalls(p4, 101, 32, OldRoot), k4 && At(v, 101, RootIn(x));
    var p6, k6 := SlicesAgreeCalls(p5, 133, NewState, 41, 32), k5 && At(v, 133, NewRoot(x));
    assert |Marker(action)| == 33 by { assert |STATEMENT_DOMAIN| == 31; }
    RequireSizeStep(p, PublicValues, size, e0, w, e, ok);
    EqualSliceInStep(p1, PublicValues, 0, Marker(action), e0, w, e, k1);
    CutEqualStep(p2, PublicValues, 33, 32, BridgeId, e0, w, e, k2);
    CutsEqualStep(p3, PublicValues, 65, PrevoutsOf, 0, 36, e0, w, e, k3);
    CutEqualStep(p4, PublicValues, 101, 32, OldRoot, e0, w, e, k4);
    CutsEqualStep(p5, PublicValues, 133, NewState, 41, 32, e0, w, e, k5);
    CutsEqualStep(p6, PublicValues, 165, AmountsOf, 0, 8, e0, w, e, k6);
  }

  lemma AuthenticatedParts(e: Env, c: Context, x: Claim)
    requires Authenticated(e, c, x)
    ensures StatementShown(e, c, x) && |x.bridgeId| == 32 && |RootIn(x)| == 32 && |x.newState| == 73
    ensures |Prevouts(c)| >= 36 && |Amounts(c)| >= 8 && Amounts(c)[0..8] == AmountOf(c)
  {
  }

  lemma ShownStatement(e: Env, c: Context, x: Claim)
    requires Shows(e, c, x) && Lookup(e, OldRoot) == RootIn(x)
    ensures StatementShown(e, c, x)
  {
  }

  /** The header checks accept exactly the header of this transaction. */
  lemma HeaderStep(p: Prog, size: nat, action: byte, e0: Env, w: World, e: Env, ok: bool, x: Claim, n: nat)
    requires Reaches(p, e0, w, e, ok) && size >= 181 && StatementShown(e, w.ctx, x) && WellFormed(w.ctx)
    requires ok ==> Authenticated(e, w.ctx, x)
    ensures Reaches(HeaderCalls(p, size, action), e0, w, e,
                    ok && |x.values| == size && HeaderIs(x.values, action, HeaderFor(w.ctx, x, n)))
  {
    hide Reaches, HeaderCalls, At, Prevouts, Amounts, RootIn, Authenticated, LE;
    var c := w.ctx;
    if ok {
      AuthenticatedParts(e, c, x);
    }
    HeaderRawStep(p, size, action, e0, w, e, ok, x);
    PrevoutAt(c, 0);
    AmountAt(c, 0);
  }

  // ---------- collection records ----------

  function RecordCalls(p: Prog, i: nat, id: Name, o: nat, keys: seq<bytes>): Prog
    requires |keys| == 3
  {
    EqualVerify(ChooseCalls(SliceCalls(EqualVerify(FixedWidthCalls(Then(SliceCalls(
      SlicesAgreeCalls(SlicesAgreeCalls(p, o, PrevoutsOf, 36 * i, 36), o + 36, AmountsOf, 8 * i, 8),
      PublicValues, o + 44, 4), Get(id)), 4)), PublicValues, o + 48, 32), id, keys))
  }

  method BindRecord(b: Builder, i: nat, id: Name, o: nat, keys: seq<bytes>)
    requires b.Valid() && {PublicValues, PrevoutsOf, AmountsOf, id} <= (set n | n in b.names) && |keys| == 3
    modifies b
    ensures b.Valid() && b.names == old(b.names)
    ensures b.at == old(b.at).(prog := RecordCalls(old(b.at).prog, i, id, o, keys))
  {
    hide SlicesAgreeCalls, SliceCalls, FixedWidthCalls, ChooseCalls;
    SlicesAgree(b, o, PrevoutsOf, 36 * i, 36);
    SlicesAgree(b, o + 36, AmountsOf, 8 * i, 8);
    b.Slice(PublicValues, o + 44, 4);
    b.Get(id);
    b.FixedWidth(4);
    b.Op(OP_EQUALVERIFY, 2, 0);
    assert b.names == old(b.names);
    b.Slice(PublicValues, o + 48, 32);
    Choose(b, id, keys);
    b.Op(OP_EQUALVERIFY, 2, 0);
    assert b.names == old(b.names);
  }

  /** The record the statement must hold for spent output `i`, claimed for the recipient number in `r`. */
  function RecordFor(t: Terms, c: Context, i: nat, r: bytes): Record
    requires |t.keys| == 3
  {
    Record(PrevoutOf(c, i), Value(c, i), Val(r), Chosen(t.keys, Val(r)))
  }

  predicate RecordIs(v: bytes, o: nat, q: Record) {
    && At(v, o, q.outpoint.Encode()) && At(v, o + 36, LE(q.value, 8)) && At(v, o + 44, LE(q.recipient, 4))
    && At(v, o + 48, q.key)
  }

  lemma NumberFieldStep(p: Prog, o: nat, id: Name, e0: Env, w: World, e: Env, ok: bool)
    requires Reaches(p, e0, w, e, ok) && id != Anon && (ok ==> o + 4 <= |Lookup(e, PublicValues)|)
    ensures Reaches(EqualVerify(FixedWidthCalls(Then(SliceCalls(p, PublicValues, o, 4), Get(id)), 4)), e0, w, e,
                    ok && At(Lookup(e, PublicValues), o, LE(Val(Lookup(e, id)), 4)))
  {
    hide Reaches, SliceCalls, FixedWidthCalls, Lookup, Val, LE;
    var v, r := Lookup(e, PublicValues), Lookup(e, id);
    var s := if ok then v[o..o + 4] else [];
    var e1 := Bind(e, Anon, s);
    CutStep(p, PublicValues, o, 4, e0, w, e, ok);
    GetStep(SliceCalls(p, PublicValues, o, 4), id, e0, w, e1, ok);
    LookupBind(e, Anon, s, id);
    FixedWidthStep(Then(SliceCalls(p, PublicValues, o, 4), Get(id)), 4, e0, w, Bind(e1, Anon, r), ok);
    EqualStep(FixedWidthCalls(Then(SliceCalls(p, PublicValues, o, 4), Get(id)), 4), e0, w,
              Bind(e1, Anon, LE(Val(r), 4)), ok);
  }

  lemma KeyFieldStep(p: Prog, o: nat, id: Name, keys: seq<bytes>, e0: Env, w: World, e: Env, ok: bool)
    requires Reaches(p, e0, w, e, ok) && id != Anon && (ok ==> o + 32 <= |Lookup(e, PublicValues)|)
    requires |keys| == 3 && |keys[0]| == 32 && |keys[1]| == 32 && |keys[2]| == 32
    ensures var n := Val(Lookup(e, id));
            Reaches(EqualVerify(ChooseCalls(SliceCalls(p, PublicValues, o, 32), id, keys)), e0, w, e,
                    ok && n < 3 && At(Lookup(e, PublicValues), o, Chosen(keys, n)))
  {
    hide Reaches, SliceCalls, ChooseCalls, Lookup, Val;
    var v, n := Lookup(e, PublicValues), Val(Lookup(e, id));
    var s := if ok then v[o..o + 32] else [];
    var e1 := Bind(e, Anon, s);
    CutStep(p, PublicValues, o, 32, e0, w, e, ok);
    LookupBind(e, Anon, s, id);
    ChooseStep(SliceCalls(p, PublicValues, o, 32), id, keys, e0, w, e1, ok);
    EqualStep(ChooseCalls(SliceCalls(p, PublicValues, o, 32), id, keys), e0, w, Bind(e1, Anon, Chosen(keys, n)),
              ok && n < 3);
  }

  lemma RecordStep(p: Prog, t: Terms, i: nat, id: Name, o: nat, e0: Env, w: World, e: Env, ok: bool, x: Claim)
    requires Reaches(p, e0, w, e, ok) && StatementShown(e, w.ctx, x) && WellFormed(w.ctx) && t.Valid() && id != Anon
    requires ok ==> i < |w.ctx.tx.inputs| && o + 80 <= |x.values|
    ensures var r := Lookup(e, id);
            Reaches(RecordCalls(p, i, id, o, t.keys), e0, w, e,
                    ok && Val(r) < 3 && RecordIs(x.values, o, RecordFor(t, w.ctx, i, r)))
  {
    hide Reaches, SlicesAgreeCalls, SliceCalls, FixedWidthCalls, ChooseCalls, Lookup, Val, LE, At, Prevouts, Amounts;
    var c, v, r := w.ctx, x.values, Lookup(e, id);
    var q := RecordFor(t, c, i, r);
    if i < |c.tx.inputs| {
      PrevoutAt(c, i);
      AmountAt(c, i);
    }
    var p1, k1 := SlicesAgreeCalls(p, o, PrevoutsOf, 36 * i, 36), ok && At(v, o, q.outpoint.Encode());
    var p2, k2 := SlicesAgreeCalls(p1, o + 36, AmountsOf, 8 * i, 8), k1 && At(v, o + 36, LE(q.value, 8));
    var p3 := EqualVerify(FixedWidthCalls(Then(SliceCalls(p2, PublicValues, o + 44, 4), Get(id)), 4));
    var k3 := k2 && At(v, o + 44, LE(q.recipient, 4));
    AgreeStep(p, o, PrevoutsOf, 36 * i, 36, e0, w, e, ok);
    AgreeStep(p1, o + 36, AmountsOf, 8 * i, 8, e0, w, e, k1);
    NumberFieldStep(p2, o + 44, id, e0, w, e, k2);
    KeyFieldStep(p3, o + 48, id, t.keys, e0, w, e, k3);
  }

  lemma AgreeStep(p: Prog, start: nat, m: Name, from: nat, len: nat, e0: Env, w: World, e: Env, ok: bool)
    requires Reaches(p, e0, w, e, ok) && m != Anon
    requires ok ==> from + len <= |Lookup(e, m)| && start + len <= |Lookup(e, PublicValues)|
    ensures Reaches(SlicesAgreeCalls(p, start, m, from, len), e0, w, e,
                    ok && At(Lookup(e, PublicValues), start, Lookup(e, m)[from..from + len]))
  {
    hide Reaches, SliceCalls, Lookup, At;
    CutsEqualStep(p, PublicValues, start, m, from, len, e0, w, e, ok);
  }

  // ---------- the whole statement ----------

  function BindCollectionCalls(p: Prog, t: Terms): Prog
    requires |t.keys| == 3
  {
    RecordCalls(RecordCalls(EqualVerify(BackingCalls(SliceCalls(HeaderCalls(p, 341, COLLECT_TWO), PublicValues, 173,
                                                                8))),
      1, RecipientA, 181, t.keys), 2, RecipientB, 261, t.keys)
  }

  function BindSettlementCalls(p: Prog): Prog {
    EqualSliceCalls(EqualVerify(RemainingCalls(SliceCalls(HeaderCalls(p, 320, TRANSFER_WITHDRAW), PublicValues, 173,
                                                          8))),
      PublicValues, 285, [0x22])
  }

  method BindCollectionStatement(b: Builder, t: Terms)
    requires b.Valid() && |t.keys| == 3
    requires {PublicValues, BridgeId, PrevoutsOf, OldRoot, NewState, AmountsOf, RecipientA,
              RecipientB} <= (set n | n in b.names)
    modifies b
    ensures b.Valid() && b.names == old(b.names)
    ensures b.at == old(b.at).(prog := BindCollectionCalls(old(b.at).prog, t))
  {
    hide HeaderCalls, SliceCalls, BackingCalls, RecordCalls;
    StatementHeader(b, 341, COLLECT_TWO);
    b.Slice(PublicValues, 173, 8);
    CalculatedBacking(b);
    b.Op(OP_EQUALVERIFY, 2, 0);
    assert b.names == old(b.names);
    BindRecord(b, 1, RecipientA, 181, t.keys);
    BindRecord(b, 2, RecipientB, 261, t.keys);
  }

  method BindSettlementStatement(b: Builder)
    requires b.Valid()
    requires {PublicValues, BridgeId, PrevoutsOf, OldRoot, NewState, AmountsOf} <= (set n | n in b.names)
    modifies b
    ensures b.Valid() && b.names == old(b.names)
    ensures b.at == old(b.at).(prog := BindSettlementCalls(old(b.at).prog))
  {
    hide HeaderCalls, SliceCalls, RemainingCalls, EqualSliceCalls;
    StatementHeader(b, 320, TRANSFER_WITHDRAW);
    b.Slice(PublicValues, 173, 8);
    RemainingBacking(b);
    b.Op(OP_EQUALVERIFY, 2, 0);
    assert b.names == old(b.names);
    b.EqualSlice(PublicValues, 285, [0x22]);
  }

  /** The statement a collection must carry, given the recipient numbers in its witness. */
  function CollectionStatement(t: Terms, c: Context, x: Claim, a: bytes, b: bytes): Statement
    requires |t.keys| == 3
  {
    CollectTwo(HeaderFor(c, x, Kept(Sum3(c))), RecordFor(t, c, 1, a), RecordFor(t, c, 2, b))
  }

  lemma BackingFieldStep(p: Prog, e0: Env, w: World, e: Env, ok: bool)
    requires Reaches(p, e0, w, e, ok) && WellFormed(w.ctx) && Lookup(e, AmountsOf) == Amounts(w.ctx)
    requires ok ==> |w.ctx.spent| == 4 && |Lookup(e, PublicValues)| >= 181
    ensures Reaches(EqualVerify(BackingCalls(SliceCalls(p, PublicValues, 173, 8))), e0, w, e,
                    ok && At(Lookup(e, PublicValues), 173, LE(Sum3(w.ctx), 8)))
  {
    hide Reaches, SliceCalls, BackingCalls, Lookup, Amounts, LE, Sum3, WellFormed;
    var v := Lookup(e, PublicValues);
    var s := if ok then v[173..181] else [];
    var e1 := Bind(e, Anon, s);
    CutStep(p, PublicValues, 173, 8, e0, w, e, ok);
    LookupBind(e, Anon, s, AmountsOf);
    BackingStep(SliceCalls(p, PublicValues, 173, 8), e0, w, e1, ok);
    EqualStep(BackingCalls(SliceCalls(p, PublicValues, 173, 8)), e0, w, Bind(e1, Anon, LE(Sum3(w.ctx), 8)), ok);
  }

  lemma CollectionRawStep(p: Prog, t: Terms, e0: Env, w: World, e: Env, ok: bool, x: Claim, n: nat)
    requires Reaches(p, e0, w, e, ok) && StatementShown(e, w.ctx, x) && WellFormed(w.ctx) && t.Valid()
    requires ok ==> Authenticated(e, w.ctx, x) && |w.ctx.tx.inputs| == 4
    ensures var c, v, a, b := w.ctx, x.values, Lookup(e, RecipientA), Lookup(e, RecipientB);
            Reaches(BindCollectionCalls(p, t), e0, w, e,
                    && ok && |v| == 341 && HeaderIs(v, COLLECT_TWO, HeaderFor(c, x, n)) && At(v, 173, LE(Sum3(c), 8))
                    && Val(a) < 3 && RecordIs(v, 181, RecordFor(t, c, 1, a))
                    && Val(b) < 3 && RecordIs(v, 261, RecordFor(t, c, 2, b)))
  {
    hide Reaches, HeaderCalls, SliceCalls, BackingCalls, RecordCalls, HeaderIs, RecordIs, RecordFor, At, Lookup, Val;
    hide LE, Sum3;
    hide Authenticated, HeaderFor, Prevouts, Amounts;
    var c, v, a, b := w.ctx, x.values, Lookup(e, RecipientA), Lookup(e, RecipientB);
    var p1, k1 := HeaderCalls(p, 341, COLLECT_TWO), ok && |v| == 341 && HeaderIs(v, COLLECT_TWO, HeaderFor(c, x, n));
    var p2, k2 := EqualVerify(BackingCalls(SliceCalls(p1, PublicValues, 173, 8))), k1 && At(v, 173, LE(Sum3(c), 8));
    var p3, k3 := RecordCalls(p2, 1, RecipientA, 181, t.keys),
        k2 && Val(a) < 3 && RecordIs(v, 181, RecordFor(t, c, 1, a));
    HeaderStep(p, 341, COLLECT_TWO, e0, w, e, ok, x, n);
    BackingFieldStep(p1, e0, w, e, k1);
    RecordStep(p2, t, 1, RecipientA, 181, e0, w, e, k2, x);
    RecordStep(p3, t, 2, RecipientB, 261, e0, w, e, k3, x);
  }

  lemma CollectionStatementMeans(t: Terms, c: Context, x: Claim, a: bytes, b: bytes)
    requires WellFormed(c) && t.Valid() && |x.bridgeId| == 32 && |RootIn(x)| == 32 && |x.newState| == 73
    requires Val(a) < 3 && Val(b) < 3
    ensures var s, v := CollectionStatement(t, c, x, a, b), x.values;
            && s.WellFormed()
            && (v == s.Encode() <==>
                 && |v| == 341 && HeaderIs(v, COLLECT_TWO, s.h) && At(v, 173, LE(Sum3(c), 8))
                 && RecordIs(v, 181, s.a) && RecordIs(v, 261, s.b))
  {
    hide LE, At, RootIn, Val, Kept;
    var s := CollectionStatement(t, c, x, a, b);
    assert s.WellFormed();
    KeptEncodes(Sum3(c));
    CollectionAt(x.values, s);
    PrefixAt(x.values, COLLECT_TWO, s.h);
    RecordAt(x.values, 181, s.a);
    RecordAt(x.values, 261, s.b);
  }

  /** The collection binding accepts one byte string, the statement of this transaction. */
  lemma BindCollectionStep(p: Prog, t: Terms, e0: Env, w: World, e: Env, ok: bool, x: Claim)
    requires Reaches(p, e0, w, e, ok) && StatementShown(e, w.ctx, x) && WellFormed(w.ctx) && t.Valid()
    requires ok ==> Authenticated(e, w.ctx, x) && |w.ctx.tx.inputs| == 4
    ensures var a, b := Lookup(e, RecipientA), Lookup(e, RecipientB);
            Reaches(BindCollectionCalls(p, t), e0, w, e,
                    ok && Val(a) < 3 && Val(b) < 3 && x.values == CollectionStatement(t, w.ctx, x, a, b).Encode())
  {
    hide Reaches, BindCollectionCalls, At, Lookup, Val, LE, Sum3, StatementShown, Authenticated, HeaderIs, RecordIs;
    var a, b := Lookup(e, RecipientA), Lookup(e, RecipientB);
    CollectionRawStep(p, t, e0, w, e, ok, x, Kept(Sum3(w.ctx)));
    if ok && Val(a) < 3 && Val(b) < 3 {
      AuthenticatedParts(e, w.ctx, x);
      CollectionStatementMeans(t, w.ctx, x, a, b);
    }
  }

  /** The statement a settlement must carry; the three message digests are the proof's to fix. */
  function SettlementStatement(c: Context, x: Claim): Statement
    requires |x.values| == 320
  {
    TransferWithdraw(HeaderFor(c, x, Excess(Value(c, 0), Payout(x.values).amount)),
                     x.values[181..213], x.values[213..245], x.values[245..277], Payout(x.values))
  }

  lemma RemainingFieldStep(p: Prog, e0: Env, w: World, e: Env, ok: bool, x: Claim)
    requires Reaches(p, e0, w, e, ok) && WellFormed(w.ctx) && Lookup(e, AmountsOf) == Amounts(w.ctx)
    requires Lookup(e, PublicValues) == x.values && (ok ==> |w.ctx.spent| > 0 && |x.values| == 320)
    ensures Reaches(EqualVerify(RemainingCalls(SliceCalls(p, PublicValues, 173, 8))), e0, w, e,
                    && ok && Payout(x.values).amount <= Value(w.ctx, 0)
                    && At(x.values, 173, LE(Excess(Value(w.ctx, 0), Payout(x.values).amount), 8)))
  {
    hide Reaches, SliceCalls, RemainingCalls, Lookup, Amounts, LE, WellFormed, Value, Paid, PaidBytes;
    var v, n := x.values, Excess(Value(w.ctx, 0), Paid(w, x));
    var s := if ok then v[173..181] else [];
    var e1 := Bind(e, Anon, s);
    CutStep(p, PublicValues, 173, 8, e0, w, e, ok);
    LookupBind(e, Anon, s, AmountsOf);
    LookupBind(e, Anon, s, PublicValues);
    RemainingStep(SliceCalls(p, PublicValues, 173, 8), e0, w, e1, ok, x);
    EqualStep(RemainingCalls(SliceCalls(p, PublicValues, 173, 8)), e0, w, Bind(e1, Anon, LE(n, 8)),
              ok && PaidBytes(w, x).Some? && Paid(w, x) <= Value(w.ctx, 0));
    if ok {
      PaidIs(w, x);
    }
  }

  lemma PaidIs(w: World, x: Claim)
    requires |x.values| == 320
    ensures PaidBytes(w, x).Some? && Paid(w, x) == Payout(x.values).amount
  {
    hide Val;
  }

  lemma SettlementStatementMeans(c: Context, x: Claim)
    requires WellFormed(c) && |x.bridgeId| == 32 && |RootIn(x)| == 32 && |x.newState| == 73
    requires |x.values| == 320
    ensures var s, v := SettlementStatement(c, x), x.values;
            && s.WellFormed()
            && (v == s.Encode() <==>
                 HeaderIs(v, TRANSFER_WITHDRAW, s.h) && At(v, 173, LE(s.h.newBacking, 8)) && At(v, 285, [0x22]))
  {
    hide LE, RootIn, Val, Prefix;
    var s, v := SettlementStatement(c, x), x.values;
    ValBound(v[277..285]);
    Pow256Values();
    assert s.WellFormed();
    ValLE(v[277..285]);
    SettlementAt(v, s);
    PrefixAt(v, TRANSFER_WITHDRAW, s.h);
  }

  /** The settlement binding accepts exactly the statements of this transaction. */
  lemma BindSettlementStep(p: Prog, e0: Env, w: World, e: Env, ok: bool, x: Claim)
    requires Reaches(p, e0, w, e, ok) && StatementShown(e, w.ctx, x) && WellFormed(w.ctx)
    requires ok ==> Authenticated(e, w.ctx, x)
    ensures Reaches(BindSettlementCalls(p), e0, w, e,
                    && ok && |x.values| == 320 && Payout(x.values).amount <= Value(w.ctx, 0)
                    && x.values == SettlementStatement(w.ctx, x).Encode())
  {
    hide Reaches, HeaderCalls, SliceCalls, RemainingCalls, EqualSliceCalls, At, Lookup, Val, LE, Authenticated;
    hide HeaderIs, RootIn;
    hide Prevouts, Amounts, Payout, Value;
    var c, v := w.ctx, x.values;
    var n := if |v| == 320 then Excess(Value(c, 0), Payout(v).amount) else 0;
    var p1, k1 := HeaderCalls(p, 320, TRANSFER_WITHDRAW),
        ok && |v| == 320 && HeaderIs(v, TRANSFER_WITHDRAW, HeaderFor(c, x, n));
    var p2 := EqualVerify(RemainingCalls(SliceCalls(p1, PublicValues, 173, 8)));
    var k2 := k1 && Payout(v).amount <= Value(c, 0) && At(v, 173, LE(n, 8));
    HeaderStep(p, 320, TRANSFER_WITHDRAW, e0, w, e, ok, x, n);
    RemainingFieldStep(p1, e0, w, e, k1, x);
    EqualSliceInStep(p2, PublicValues, 285, [0x22], e0, w, e, k2);
    if ok && |v| == 320 {
      AuthenticatedParts(e, c, x);
      SettlementStatementMeans(c, x);
    }
  }
}
