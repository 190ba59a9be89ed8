// What the programs learn from OP_TX. The raw fields they compare determine the transaction's version, counts,
// sequences, scripts and the scripts of the outputs it spends; both directions are proved.
module TxContext {
  import opened Bytes
  import opened Transactions
  import opened Script
  import opened Building
  import opened Calls
  import opened BuilderClass

  ghost predicate WellFormed(c: Context) {
    && c.tx.WellFormed() && |c.spent| == |c.tx.inputs| && c.index < |c.tx.inputs|
    && forall k :: 0 <= k < |c.spent| ==> c.spent[k].WellFormed()
  }

  // ---------- concatenations of fields ----------

  lemma {:induction false} ConcatCons<T>(f: T -> bytes, xs: seq<T>)
    requires xs != []
    ensures Concat(f, xs) == f(xs[0]) + Concat(f, xs[1..])
  {
    var n := |xs| - 1;
    if n != 0 {
      ConcatCons(f, xs[..n]);
      assert xs[1..][..n - 1] == xs[..n][1..];
    }
  }

  lemma {:induction false} FixedLength<T>(f: T -> bytes, xs: seq<T>, k: nat)
    requires forall i :: 0 <= i < |xs| ==> |f(xs[i])| == k
    ensures |Concat(f, xs)| == k * |xs|
  {
    if xs != [] {
      FixedLength(f, xs[..|xs| - 1], k);
      assert k * (|xs| - 1) + k == k * |xs|;
    }
  }

  /** Fields of one width stand at multiples of it. */
  lemma {:induction false} FixedAt<T>(f: T -> bytes, xs: seq<T>, k: nat, i: nat)
    requires i < |xs| && forall i :: 0 <= i < |xs| ==> |f(xs[i])| == k
    ensures k * i + k <= |Concat(f, xs)| && Concat(f, xs)[k * i..k * i + k] == f(xs[i])
  {
    var n := |xs| - 1;
    var front, last := Concat(f, xs[..n]), f(xs[n]);
    FixedLength(f, xs[..n], k);
    assert Concat(f, xs) == front + last;
    if i < n {
      FixedAt(f, xs[..n], k, i);
      assert (front + last)[k * i..k * i + k] == front[k * i..k * i + k];
    } else {
      assert (front + last)[k * i..k * i + k] == last;
    }
  }

  const REPLACEABLE: bytes := [0xfd, 0xff, 0xff, 0xff]

  function Repeat(b: bytes, n: nat): bytes {
    if n == 0 then [] else Repeat(b, n - 1) + b
  }

  lemma ReplaceableSequence(s: nat)
    requires s < U32
    ensures LE(s, 4) == REPLACEABLE <==> s == 0xffff_fffd
  {
    Pow256Values();
    assert LE(0xffff_fffd, 4) == REPLACEABLE by {
      assert LE(0xffff_fffd, 4) == [0xfd] + LE(0xff_ffff, 3);
      assert LE(0xff_ffff, 3) == [0xff] + LE(0xffff, 2);
    }
    if LE(s, 4) == REPLACEABLE {
      LEInjective(s, 0xffff_fffd, 4);
    }
  }

  lemma {:induction false} SequencesMean(xs: seq<TxIn>)
    requires forall i :: 0 <= i < |xs| ==> xs[i].WellFormed()
    ensures Concat(EncodeSequence, xs) == Repeat(REPLACEABLE, |xs|) <==>
            forall i :: 0 <= i < |xs| ==> xs[i].sequence == 0xffff_fffd
  {
    if xs != [] {
      var n := |xs| - 1;
      var front, last := xs[..n], xs[n];
      SequencesMean(front);
      ReplaceableSequence(last.sequence);
      var a, b, c := Concat(EncodeSequence, front), EncodeSequence(last), Repeat(REPLACEABLE, n);
      assert Concat(EncodeSequence, xs) == a + b && Repeat(REPLACEABLE, |xs|) == c + REPLACEABLE;
      if a + b == c + REPLACEABLE {
        PeelBack(a, b, c, REPLACEABLE);
      }
      assert xs == front + [last];
    }
  }

  lemma PeelBack(a: bytes, b: bytes, c: bytes, d: bytes)
    requires |b| == |d| && a + b == c + d
    ensures a == c && b == d
  {
    assert |a + b| == |c + d|;
    Peel(a, b, c, d);
  }

  lemma {:induction false} ScriptSigsMean(xs: seq<TxIn>)
    requires forall i :: 0 <= i < |xs| ==> xs[i].WellFormed()
    ensures |Concat(EncodeScriptSig, xs)| >= |xs|
    ensures |Concat(EncodeScriptSig, xs)| == |xs| <==> forall i :: 0 <= i < |xs| ==> xs[i].scriptSig == []
    ensures |Concat(EncodeScriptSig, xs)| == |xs| ==> Concat(EncodeScriptSig, xs) == Zeros(|xs|)
  {
    if xs != [] {
      var n := |xs| - 1;
      ScriptSigsMean(xs[..n]);
      assert xs == xs[..n] + [xs[n]];
      assert |EncodeScriptSig(xs[n])| == 1 <==> xs[n].scriptSig == [];
      assert VarBytes([]) == [0];
      assert Zeros(n) + [0] == Zeros(n + 1);
    }
  }

  function ShapeBytes(ins: byte, outs: byte): bytes {
    [2, 0, 0, 0] + [0, 0, 0, 0] + [ins, 0, 0, 0] + [outs, 0, 0, 0]
  }

  lemma SmallLE(n: byte)
    ensures LE(n, 4) == [n, 0, 0, 0]
  {
    LEZero(3);
  }

  lemma ShapeMeans(c: Context, ins: byte, outs: byte)
    requires c.tx.WellFormed()
    ensures Shape(c) == ShapeBytes(ins, outs) <==>
            c.tx.version == 2 && c.tx.locktime == 0 && |c.tx.inputs| == ins && |c.tx.outputs| == outs
  {
    SmallLE(2);
    SmallLE(0);
    SmallLE(ins);
    SmallLE(outs);
    Pow256Values();
    if Shape(c) == ShapeBytes(ins, outs) {
      var v, l, i, o := LE(c.tx.version, 4), LE(c.tx.locktime, 4), LE(|c.tx.inputs|, 4), LE(|c.tx.outputs|, 4);
      PeelBack(v + l + i, o, LE(2, 4) + LE(0, 4) + LE(ins, 4), LE(outs, 4));
      PeelBack(v + l, i, LE(2, 4) + LE(0, 4), LE(ins, 4));
      PeelBack(v, l, LE(2, 4), LE(0, 4));
      LEInjective(c.tx.version, 2, 4);
      LEInjective(c.tx.locktime, 0, 4);
      LEInjective(|c.tx.inputs|, ins, 4);
      LEInjective(|c.tx.outputs|, outs, 4);
    }
  }

  /** The raw comparisons every program makes. */
  predicate RawContext(c: Context, ins: byte, outs: byte) {
    && Shape(c) == ShapeBytes(ins, outs)
    && Concat(EncodeSequence, c.tx.inputs) == Repeat(REPLACEABLE, ins)
    && Concat(EncodeScriptSig, c.tx.inputs) == Zeros(ins)
    && c.annex == []
    && |Prevouts(c)| == 36 * ins && At(Prevouts(c), 32, Zeros(4))
    && |Amounts(c)| == 8 * ins && |Spks(c)| == 35 * ins
  }

  /** What they amount to. */
  predicate PlainContext(c: Context, ins: byte, outs: byte) {
    && c.tx.version == 2 && c.tx.locktime == 0 && |c.tx.inputs| == ins > 0 && |c.tx.outputs| == outs
    && (forall i :: 0 <= i < ins ==> c.tx.inputs[i].Plain())
    && c.annex == [] && c.tx.inputs[0].prevout.vout == 0 && |Spks(c)| == 35 * ins
  }

  lemma PrevoutAt(c: Context, i: nat)
    requires c.tx.WellFormed() && i < |c.tx.inputs|
    ensures |Prevouts(c)| == 36 * |c.tx.inputs|
    ensures Prevouts(c)[36 * i..36 * i + 36] == c.tx.inputs[i].prevout.Encode()
  {
    FixedLength(EncodePrevout, c.tx.inputs, 36);
    FixedAt(EncodePrevout, c.tx.inputs, 36, i);
  }

  lemma AmountAt(c: Context, k: nat)
    requires k < |c.spent|
    ensures |Amounts(c)| == 8 * |c.spent|
    ensures Amounts(c)[8 * k..8 * k + 8] == LE(c.spent[k].amount, 8)
  {
    FixedLength(EncodeAmount, c.spent, 8);
    FixedAt(EncodeAmount, c.spent, 8, k);
  }

  lemma FirstPrevout(c: Context)
    requires c.tx.WellFormed() && |c.tx.inputs| > 0
    ensures var o := c.tx.inputs[0].prevout;
            && At(Prevouts(c), 0, o.txid) && At(Prevouts(c), 0, o.Encode())
            && (At(Prevouts(c), 32, Zeros(4)) <==> o.vout == 0)
  {
    var o := c.tx.inputs[0].prevout;
    PrevoutAt(c, 0);
    var b := Prevouts(c);
    assert b[0..36] == o.txid + LE(o.vout, 4);
    assert b[0..32] == b[0..36][..32] && b[32..36] == b[0..36][32..];
    Pow256Values();
    LEZero(4);
    if LE(o.vout, 4) == Zeros(4) {
      LEInjective(o.vout, 0, 4);
    }
  }

  lemma ContextMeans(c: Context, ins: byte, outs: byte)
    requires WellFormed(c) && ins > 0
    ensures RawContext(c, ins, outs) <==> PlainContext(c, ins, outs)
  {
    hide Shape, ShapeBytes, Prevouts, Spks, Amounts;
    ShapeMeans(c, ins, outs);
    if |c.tx.inputs| == ins {
      SequencesMean(c.tx.inputs);
      ScriptSigsMean(c.tx.inputs);
      PrevoutAt(c, 0);
      AmountAt(c, 0);
      FirstPrevout(c);
    }
  }

  // ---------- spent scripts ----------

  lemma ShortVarBytes(b: bytes, r: bytes)
    requires |b| < U64
    ensures (VarBytes(b) + r)[0] == 0x22 <==> |b| == 34
    ensures |b| == 34 ==> VarBytes(b) + r == [0x22] + (b + r)
  {
  }

  predicate AllNative(xs: seq<TxOut>) { forall k :: 0 <= k < |xs| ==> |xs[k].spk| == 34 }

  predicate Marked(b: bytes, n: nat) { forall k :: 0 <= k < n ==> At(b, 35 * k, [0x22]) }

  /** Length markers at every 35th byte of the right total size mean that all spent scripts have 34 bytes. */
  lemma {:induction false} MarksMean(xs: seq<TxOut>)
    requires forall k :: 0 <= k < |xs| ==> xs[k].WellFormed()
    ensures |Concat(EncodeSpk, xs)| == 35 * |xs| && Marked(Concat(EncodeSpk, xs), |xs|) <==> AllNative(xs)
  {
    if xs != [] {
      ConcatCons(EncodeSpk, xs);
      MarksMean(xs[1..]);
      MarksMeanStep(xs, Concat(EncodeSpk, xs[1..]));
    }
  }

  lemma MarksMeanStep(xs: seq<TxOut>, r: bytes)
    requires xs != [] && xs[0].WellFormed()
    requires |r| == 35 * (|xs| - 1) && Marked(r, |xs| - 1) <==> AllNative(xs[1..])
    ensures var b := VarBytes(xs[0].spk) + r; |b| == 35 * |xs| && Marked(b, |xs|) <==> AllNative(xs)
  {
    var s, n := xs[0].spk, |xs|;
    var b := VarBytes(s) + r;
    ShortVarBytes(s, r);
    if AllNative(xs) {
      assert AllNative(xs[1..]);
      ShiftMarks(b, r, n);
    }
    if |b| == 35 * n && Marked(b, n) {
      assert At(b, 35 * 0, [0x22]);
      ShiftMarks(b, r, n);
      forall k | 0 <= k < n ensures |xs[k].spk| == 34 {
        if k > 0 {
          assert xs[k] == xs[1..][k - 1];
        }
      }
    }
  }

  lemma ShiftMarks(b: bytes, r: bytes, n: nat)
    requires n > 0 && |b| == 35 + |r| && b[0] == 0x22 && b[35..] == r
    ensures Marked(b, n) <==> Marked(r, n - 1)
  {
    if Marked(r, n - 1) {
      forall k | 0 <= k < n ensures At(b, 35 * k, [0x22]) {
        if k > 0 {
          assert At(r, 35 * (k - 1), [0x22]);
          assert b[35 * k] == r[35 * (k - 1)];
        }
      }
    }
    if Marked(b, n) {
      forall k | 0 <= k < n - 1 ensures At(r, 35 * k, [0x22]) {
        assert At(b, 35 * (k + 1), [0x22]);
        assert b[35 * (k + 1)] == r[35 * k];
      }
    }
  }

  lemma NativeSpkAt(c: Context, k: nat)
    requires AllNative(c.spent) && k < |c.spent|
    ensures |Spks(c)| == 35 * |c.spent| && Spks(c)[35 * k..35 * k + 35] == [0x22] + c.spent[k].spk
    ensures At(Spks(c), 35 * k, [0x22]) && At(Spks(c), 35 * k + 1, c.spent[k].spk)
  {
    forall i | 0 <= i < |c.spent| ensures EncodeSpk(c.spent[i]) == [0x22] + c.spent[i].spk {
      ShortVarBytes(c.spent[i].spk, []);
    }
    FixedLength(EncodeSpk, c.spent, 35);
    FixedAt(EncodeSpk, c.spent, 35, k);
    var b := Spks(c);
    assert b[35 * k..35 * k + 35][..1] == b[35 * k..35 * k + 1];
    assert b[35 * k..35 * k + 35][1..] == b[35 * k + 1..35 * k + 35];
  }

  /** The first spent script is readable as soon as its own marker is. */
  lemma FirstSpk(c: Context)
    requires WellFormed(c) && |c.spent| > 0
    ensures At(Spks(c), 0, [0x22]) <==> |c.spent[0].spk| == 34
    ensures |c.spent[0].spk| == 34 ==> At(Spks(c), 1, c.spent[0].spk)
  {
    ConcatCons(EncodeSpk, c.spent);
    ShortVarBytes(c.spent[0].spk, Concat(EncodeSpk, c.spent[1..]));
    var b := Spks(c);
    assert |b| > 0;
    assert b[0..1] == [b[0]];
  }

  // ---------- the calls shared by the three programs ----------

  lemma TxFields(c: Context)
    ensures TxField(c, TX_SHAPE) == Some(Shape(c)) && TxField(c, ANNEX) == Some(c.annex)
    ensures TxField(c, SEQUENCES) == Some(Concat(EncodeSequence, c.tx.inputs))
    ensures TxField(c, SCRIPT_SIGS) == Some(Concat(EncodeScriptSig, c.tx.inputs))
    ensures TxField(c, PREVOUTS) == Some(Prevouts(c)) && TxField(c, AMOUNTS) == Some(Amounts(c))
    ensures TxField(c, SPKS) == Some(Spks(c)) && TxField(c, CURRENT_INDEX) == Some(LE(c.index, 4))
    ensures TxField(c, OUTPUTS) == Some(Concat(EncodeOut, c.tx.outputs))
  {
  }

  lemma LookupBind(e: Env, n: Name, v: bytes, m: Name)
    ensures Lookup(Bind(e, n, v), m) == if n == m then v else Lookup(e, m)
  {
  }

  lemma LookupRead(e: Env, c: Context, m: Name)
    ensures Lookup(Read(e, c), m) ==
            if m == PrevoutsOf then Prevouts(c) else if m == AmountsOf then Amounts(c)
            else if m == SpksOf then Spks(c) else Lookup(e, m)
  {
    var e1 := Bind(e, PrevoutsOf, Prevouts(c));
    var e2 := Bind(e1, AmountsOf, Amounts(c));
    LookupBind(e, PrevoutsOf, Prevouts(c), m);
    LookupBind(e1, AmountsOf, Amounts(c), m);
    LookupBind(e2, SpksOf, Spks(c), m);
  }

  function ReadCalls(p: Prog): Prog {
    Then(TxCalls(Then(TxCalls(Then(TxCalls(p, PREVOUTS), Rename(PrevoutsOf)), AMOUNTS), Rename(AmountsOf)), SPKS),
         Rename(SpksOf))
  }

  function Read(e: Env, c: Context): Env {
    Bind(Bind(Bind(e, PrevoutsOf, Prevouts(c)), AmountsOf, Amounts(c)), SpksOf, Spks(c))
  }

  lemma ReadStep(p: Prog, e0: Env, w: World, e: Env, ok: bool)
    requires Reaches(p, e0, w, e, ok)
    ensures Reaches(ReadCalls(p), e0, w, Read(e, w.ctx), ok)
  {
    hide Reaches, TxCalls, Prevouts, Amounts, Spks, TxField;
    var c := w.ctx;
    TxFields(c);
    var p1, e1 := Then(TxCalls(p, PREVOUTS), Rename(PrevoutsOf)), Bind(e, PrevoutsOf, Prevouts(c));
    var p2, e2 := Then(TxCalls(p1, AMOUNTS), Rename(AmountsOf)), Bind(e1, AmountsOf, Amounts(c));
    TxStep(p, PREVOUTS, e0, w, e, ok);
    NameStep(TxCalls(p, PREVOUTS), PrevoutsOf, e0, w, Bind(e, Anon, Prevouts(c)), ok);
    TxStep(p1, AMOUNTS, e0, w, e1, ok);
    NameStep(TxCalls(p1, AMOUNTS), AmountsOf, e0, w, Bind(e1, Anon, Amounts(c)), ok);
    TxStep(p2, SPKS, e0, w, e2, ok);
    NameStep(TxCalls(p2, SPKS), SpksOf, e0, w, Bind(e2, Anon, Spks(c)), ok);
  }

  function FieldCalls(p: Prog, ins: byte, outs: byte): Prog {
    TxEqualCalls(TxEqualCalls(TxEqualCalls(TxEqualCalls(p, TX_SHAPE, ShapeBytes(ins, outs)),
      SEQUENCES, Repeat(REPLACEABLE, ins)), SCRIPT_SIGS, Zeros(ins)), ANNEX, [])
  }

  function ContextCalls(p: Prog, ins: byte, outs: byte): Prog {
    RequireSizeCalls(RequireSizeCalls(EqualSliceCalls(RequireSizeCalls(ReadCalls(FieldCalls(p, ins, outs)),
      PrevoutsOf, 36 * ins), PrevoutsOf, 32, Zeros(4)), AmountsOf, 8 * ins), SpksOf, 35 * ins)
  }

  method CheckContext(b: Builder, ins: byte, outs: byte)
    requires b.Valid()
    modifies b
    ensures b.Valid() && b.names == old(b.names) + [PrevoutsOf, AmountsOf, SpksOf]
    ensures b.at == old(b.at).(prog := ContextCalls(old(b.at).prog, ins, outs))
  {
    TxEqual(b, TX_SHAPE, ShapeBytes(ins, outs));
    TxEqual(b, SEQUENCES, Repeat(REPLACEABLE, ins));
    TxEqual(b, SCRIPT_SIGS, Zeros(ins));
    TxEqual(b, ANNEX, []);
    ReadTx(b, PREVOUTS, PrevoutsOf);
    ReadTx(b, AMOUNTS, AmountsOf);
    ReadTx(b, SPKS, SpksOf);
    assert b.names == old(b.names) + [PrevoutsOf, AmountsOf, SpksOf];
    b.RequireSize(PrevoutsOf, 36 * ins);
    b.EqualSlice(PrevoutsOf, 32, Zeros(4));
    b.RequireSize(AmountsOf, 8 * ins);
    b.RequireSize(SpksOf, 35 * ins);
  }

  method TxEqual(b: Builder, selector: bytes, x: bytes)
    requires b.Valid()
    modifies b
    ensures b.Valid() && b.names == old(b.names)
    ensures b.at == old(b.at).(prog := TxEqualCalls(old(b.at).prog, selector, x))
  {
    b.Tx(selector);
    b.Push(x);
    b.Op(OP_EQUALVERIFY, 2, 0);
  }

  method ReadTx(b: Builder, selector: bytes, n: Name)
    requires b.Valid()
    modifies b
    ensures b.Valid() && b.names == old(b.names) + [n]
    ensures b.at == old(b.at).(prog := Then(TxCalls(old(b.at).prog, selector), Rename(n)))
  {
    b.Tx(selector);
    b.SetName(n);
  }

  lemma FieldStep(p: Prog, ins: byte, outs: byte, e0: Env, w: World, e: Env, ok: bool)
    requires Reaches(p, e0, w, e, ok)
    ensures Reaches(FieldCalls(p, ins, outs), e0, w, e,
                    && ok && Shape(w.ctx) == ShapeBytes(ins, outs)
                    && Concat(EncodeSequence, w.ctx.tx.inputs) == Repeat(REPLACEABLE, ins)
                    && Concat(EncodeScriptSig, w.ctx.tx.inputs) == Zeros(ins) && w.ctx.annex == [])
  {
    hide Reaches, TxEqualCalls, Shape, ShapeBytes, TxField, Concat, Repeat;
    var c := w.ctx;
    TxFields(c);
    var p1, k1 := TxEqualCalls(p, TX_SHAPE, ShapeBytes(ins, outs)), ok && Shape(c) == ShapeBytes(ins, outs);
    var p2 := TxEqualCalls(p1, SEQUENCES, Repeat(REPLACEABLE, ins));
    var k2 := k1 && Concat(EncodeSequence, c.tx.inputs) == Repeat(REPLACEABLE, ins);
    var p3, k3 := TxEqualCalls(p2, SCRIPT_SIGS, Zeros(ins)), k2 && Concat(EncodeScriptSig, c.tx.inputs) == Zeros(ins);
    TxEqualStep(p, TX_SHAPE, ShapeBytes(ins, outs), e0, w, e, ok);
    TxEqualStep(p1, SEQUENCES, Repeat(REPLACEABLE, ins), e0, w, e, k1);
    TxEqualStep(p2, SCRIPT_SIGS, Zeros(ins), e0, w, e, k2);
    TxEqualStep(p3, ANNEX, [], e0, w, e, k3);
  }

  lemma RawContextStep(p: Prog, ins: byte, outs: byte, e0: Env, w: World, e: Env, ok: bool)
    requires Reaches(p, e0, w, e, ok)
    ensures Reaches(ContextCalls(p, ins, outs), e0, w, Read(e, w.ctx),
                    ok && RawContext(w.ctx, ins, outs)) || ins == 0
  {
    hide Reaches, FieldCalls, ReadCalls, RequireSizeCalls, EqualSliceCalls, Shape, ShapeBytes, Prevouts, Amounts, Spks;
    hide SliceIs, Lookup, Read;
    var c := w.ctx;
    var e' := Read(e, c);
    var k0 := && ok && Shape(c) == ShapeBytes(ins, outs)
        && Concat(EncodeSequence, c.tx.inputs) == Repeat(REPLACEABLE, ins)
              && Concat(EncodeScriptSig, c.tx.inputs) == Zeros(ins) && c.annex == [];
    var p0 := FieldCalls(p, ins, outs);
    var p1 := ReadCalls(p0);
    var p2, k2 := RequireSizeCalls(p1, PrevoutsOf, 36 * ins), k0 && |Prevouts(c)| == 36 * ins;
    var p3, k3 := EqualSliceCalls(p2, PrevoutsOf, 32, Zeros(4)), k2 && SliceIs(w, Prevouts(c), 32, Zeros(4));
    var p4, k4 := RequireSizeCalls(p3, AmountsOf, 8 * ins), k3 && |Amounts(c)| == 8 * ins;
    LookupRead(e, c, PrevoutsOf);
    LookupRead(e, c, AmountsOf);
    LookupRead(e, c, SpksOf);
    FieldStep(p, ins, outs, e0, w, e, ok);
    ReadStep(p0, e0, w, e, k0);
    RequireSizeStep(p1, PrevoutsOf, 36 * ins, e0, w, e', k0);
    EqualSliceStep(p2, PrevoutsOf, 32, Zeros(4), e0, w, e', k2);
    RequireSizeStep(p3, AmountsOf, 8 * ins, e0, w, e', k3);
    RequireSizeStep(p4, SpksOf, 35 * ins, e0, w, e', k4);
    if ins > 0 && |Prevouts(c)| == 36 * ins {
      InRange(w, Prevouts(c), 32, Zeros(4));
    }
  }

  lemma InRange(w: World, b: bytes, start: nat, x: bytes)
    requires start + |x| <= |b|
    ensures SliceIs(w, b, start, x) <==> At(b, start, x)
  {
  }

  /** The shared calls succeed exactly on a plain transaction, and bind its three field lists. */
  lemma ContextStep(p: Prog, ins: byte, outs: byte, e0: Env, w: World, e: Env, ok: bool)
    requires Reaches(p, e0, w, e, ok) && WellFormed(w.ctx) && ins > 0
    ensures Reaches(ContextCalls(p, ins, outs), e0, w, Read(e, w.ctx), ok && PlainContext(w.ctx, ins, outs))
  {
    hide Reaches, ContextCalls, RawContext, PlainContext, Read;
    RawContextStep(p, ins, outs, e0, w, e, ok);
    ContextMeans(w.ctx, ins, outs);
  }
}
