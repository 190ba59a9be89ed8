// Transactions, their non-witness serialization, and the fixed-offset shapes that the Script programs
// recognise. Hashing a serialization authenticates a transaction only because the serialization is
// uniquely decodable, which is proved here for every well-formed transaction.
module Transactions {
  import opened Bytes

  datatype OutPoint = OutPoint(txid: bytes, vout: nat) {
    predicate WellFormed() { |txid| == 32 && vout < U32 }

    /** Rust `OutPoint::encode`: raw txid, then the index in four little-endian bytes. */
    function Encode(): bytes { txid + LE(vout, 4) }
  }

  datatype TxIn = TxIn(prevout: OutPoint, scriptSig: bytes, sequence: nat) {
    predicate WellFormed() { prevout.WellFormed() && |scriptSig| < U64 && sequence < U32 }
    function Encode(): bytes { prevout.Encode() + (VarBytes(scriptSig) + LE(sequence, 4)) }
    predicate Plain() { prevout.WellFormed() && scriptSig == [] && sequence == 0xffff_fffd }
  }

  datatype TxOut = TxOut(amount: nat, spk: bytes) {
    predicate WellFormed() { amount < U64 && |spk| < U64 }
    function Encode(): bytes { LE(amount, 8) + VarBytes(spk) }
    predicate Plain() { amount < U64 && |spk| == 34 }
  }

  datatype Tx = Tx(version: nat, inputs: seq<TxIn>, outputs: seq<TxOut>, locktime: nat) {
    predicate WellFormed() {
      && version < U32 && locktime < U32 && |inputs| < U32 && |outputs| < U32
      && (forall i :: 0 <= i < |inputs| ==> inputs[i].WellFormed())
      && (forall j :: 0 <= j < |outputs| ==> outputs[j].WellFormed())
    }

    /** The serialization without witness data, whose double SHA256 is the txid. */
    function Encode(): bytes {
      LE(version, 4) + (CompactSize(|inputs|) + (Concat(EncodeIn, inputs) +
      (CompactSize(|outputs|) + (Concat(EncodeOut, outputs) + LE(locktime, 4)))))
    }

    /** Version 2, locktime 0, `ins` empty-scriptSig replaceable inputs, `outs` 34-byte outputs. */
    predicate Plain(ins: nat, outs: nat) {
      && version == 2 && locktime == 0 && |inputs| == ins && |outputs| == outs
      && (forall i :: 0 <= i < ins ==> inputs[i].Plain())
      && (forall j :: 0 <= j < outs ==> outputs[j].Plain())
    }
  }

  function EncodeIn(i: TxIn): bytes { i.Encode() }

  function EncodeOut(o: TxOut): bytes { o.Encode() }

  function CompactSize(n: nat): bytes {
    if n < 0xfd then [n]
    else if n < 0x1_0000 then [0xfd] + LE(n, 2)
    else if n < U32 then [0xfe] + LE(n, 4)
    else [0xff] + LE(n, 8)
  }

  function VarBytes(b: bytes): bytes { CompactSize(|b|) + b }

  function Concat<T>(f: T -> bytes, xs: seq<T>): bytes {
    if xs == [] then [] else Concat(f, xs[..|xs| - 1]) + f(xs[|xs| - 1])
  }

  lemma ConcatLast<T>(f: T -> bytes, xs: seq<T>, r: bytes)
    requires xs != []
    ensures Concat(f, xs) + r == Concat(f, xs[..|xs| - 1]) + (f(xs[|xs| - 1]) + r)
  {
  }

  lemma ConcatSnoc<T>(f: T -> bytes, xs: seq<T>, x: T)
    ensures Concat(f, xs + [x]) == Concat(f, xs) + f(x)
  {
    assert (xs + [x])[..|xs|] == xs;
  }

  // ---------- unique decodability ----------

  lemma CompactSizePeel(m: nat, n: nat, r: bytes, s: bytes)
    requires m < U64 && n < U64 && CompactSize(m) + r == CompactSize(n) + s
    ensures m == n && r == s
  {
    assert (CompactSize(m) + r)[0] == CompactSize(m)[0] && (CompactSize(n) + s)[0] == CompactSize(n)[0];
    assert |CompactSize(m)| == |CompactSize(n)|;
    Peel(CompactSize(m), r, CompactSize(n), s);
    assert CompactSize(m)[1..] == CompactSize(n)[1..];
    assert Pow256(2) == 0x1_0000;
    Pow256Values();
    if m >= 0xfd {
      var w := if m < 0x1_0000 then 2 else if m < U32 then 4 else 8;
      assert CompactSize(m)[1..] == LE(m, w) && CompactSize(n)[1..] == LE(n, w);
      LEInjective(m, n, w);
    }
  }

  lemma VarBytesPeel(a: bytes, b: bytes, r: bytes, s: bytes)
    requires |a| < U64 && |b| < U64 && VarBytes(a) + r == VarBytes(b) + s
    ensures a == b && r == s
  {
    assert VarBytes(a) + r == CompactSize(|a|) + (a + r);
    assert VarBytes(b) + s == CompactSize(|b|) + (b + s);
    CompactSizePeel(|a|, |b|, a + r, b + s);
    Peel(a, r, b, s);
  }

  lemma LEPeel(m: nat, n: nat, w: nat, r: bytes, s: bytes)
    requires m < Pow256(w) && n < Pow256(w) && LE(m, w) + r == LE(n, w) + s
    ensures m == n && r == s
  {
    Peel(LE(m, w), r, LE(n, w), s);
    LEInjective(m, n, w);
  }

  lemma OutPointPeel(a: OutPoint, b: OutPoint, r: bytes, s: bytes)
    requires a.WellFormed() && b.WellFormed() && a.Encode() + r == b.Encode() + s
    ensures a == b && r == s
  {
    Pow256Values();
    Peel(a.Encode(), r, b.Encode(), s);
    Peel(a.txid, LE(a.vout, 4), b.txid, LE(b.vout, 4));
    LEInjective(a.vout, b.vout, 4);
  }

  lemma InPeel(a: TxIn, b: TxIn, r: bytes, s: bytes)
    requires a.WellFormed() && b.WellFormed() && a.Encode() + r == b.Encode() + s
    ensures a == b && r == s
  {
    Pow256Values();
    var ta, tb := VarBytes(a.scriptSig) + LE(a.sequence, 4), VarBytes(b.scriptSig) + LE(b.sequence, 4);
    assert a.Encode() + r == a.prevout.Encode() + (ta + r);
    assert b.Encode() + s == b.prevout.Encode() + (tb + s);
    OutPointPeel(a.prevout, b.prevout, ta + r, tb + s);
    assert ta + r == VarBytes(a.scriptSig) + (LE(a.sequence, 4) + r);
    assert tb + s == VarBytes(b.scriptSig) + (LE(b.sequence, 4) + s);
    VarBytesPeel(a.scriptSig, b.scriptSig, LE(a.sequence, 4) + r, LE(b.sequence, 4) + s);
    LEPeel(a.sequence, b.sequence, 4, r, s);
  }

  lemma OutPeel(a: TxOut, b: TxOut, r: bytes, s: bytes)
    requires a.WellFormed() && b.WellFormed() && a.Encode() + r == b.Encode() + s
    ensures a == b && r == s
  {
    Pow256Values();
    assert a.Encode() + r == LE(a.amount, 8) + (VarBytes(a.spk) + r);
    assert b.Encode() + s == LE(b.amount, 8) + (VarBytes(b.spk) + s);
    LEPeel(a.amount, b.amount, 8, VarBytes(a.spk) + r, VarBytes(b.spk) + s);
    VarBytesPeel(a.spk, b.spk, r, s);
  }

  lemma {:induction false} InsPeel(a: seq<TxIn>, b: seq<TxIn>, r: bytes, s: bytes)
    requires |a| == |b| && Concat(EncodeIn, a) + r == Concat(EncodeIn, b) + s
    requires forall i :: 0 <= i < |a| ==> a[i].WellFormed() && b[i].WellFormed()
    ensures a == b && r == s
  {
    hide TxIn.WellFormed, TxIn.Encode;
    if a == [] {
      assert Concat(EncodeIn, a) + r == r && Concat(EncodeIn, b) + s == s;
    } else {
      var n := |a| - 1;
      var a', x, b', y := a[..n], a[n], b[..n], b[n];
      ConcatLast(EncodeIn, a, r);
      ConcatLast(EncodeIn, b, s);
      InsPeel(a', b', EncodeIn(x) + r, EncodeIn(y) + s);
      InPeel(x, y, r, s);
      assert a == a' + [x] && b == b' + [y];
    }
  }

  lemma {:induction false} OutsPeel(a: seq<TxOut>, b: seq<TxOut>, r: bytes, s: bytes)
    requires |a| == |b| && Concat(EncodeOut, a) + r == Concat(EncodeOut, b) + s
    requires forall i :: 0 <= i < |a| ==> a[i].WellFormed() && b[i].WellFormed()
    ensures a == b && r == s
  {
    hide TxOut.WellFormed, TxOut.Encode;
    if a == [] {
      assert Concat(EncodeOut, a) + r == r && Concat(EncodeOut, b) + s == s;
    } else {
      var n := |a| - 1;
      var a', x, b', y := a[..n], a[n], b[..n], b[n];
      ConcatLast(EncodeOut, a, r);
      ConcatLast(EncodeOut, b, s);
      OutsPeel(a', b', EncodeOut(x) + r, EncodeOut(y) + s);
      OutPeel(x, y, r, s);
      assert a == a' + [x] && b == b' + [y];
    }
  }

  /** No two well-formed transactions share a serialization. */
  lemma EncodeInjective(t: Tx, u: Tx)
    requires t.WellFormed() && u.WellFormed() && t.Encode() == u.Encode()
    ensures t == u
  {
    Pow256Values();
    var lt, lu := LE(t.locktime, 4), LE(u.locktime, 4);
    var ot, ou := Concat(EncodeOut, t.outputs) + lt, Concat(EncodeOut, u.outputs) + lu;
    var nt, nu := CompactSize(|t.outputs|) + ot, CompactSize(|u.outputs|) + ou;
    var it, iu := Concat(EncodeIn, t.inputs) + nt, Concat(EncodeIn, u.inputs) + nu;
    LEPeel(t.version, u.version, 4, CompactSize(|t.inputs|) + it, CompactSize(|u.inputs|) + iu);
    CompactSizePeel(|t.inputs|, |u.inputs|, it, iu);
    InsPeel(t.inputs, u.inputs, nt, nu);
    CompactSizePeel(|t.outputs|, |u.outputs|, ot, ou);
    OutsPeel(t.outputs, u.outputs, lt, lu);
    LEInjective(t.locktime, u.locktime, 4);
  }

  // ---------- fixed-offset shapes ----------

  /** The bytes at `offset` are `expected`. */
  predicate At(b: bytes, offset: nat, expected: bytes) {
    offset + |expected| <= |b| && b[offset..offset + |expected|] == expected
  }

  function PlainSize(ins: nat, outs: nat): nat { 10 + 41 * ins + 43 * outs }

  const PLAIN_TAIL: bytes := [0x00, 0xfd, 0xff, 0xff, 0xff]

  /** What the fixed-offset checks test, for any input and output count that fits one byte. */
  predicate PlainShape(b: bytes, ins: byte, outs: byte) {
    && |b| == PlainSize(ins, outs)
    && At(b, 0, [2, 0, 0, 0, ins])
    && (forall i :: 0 <= i < ins ==> At(b, 41 + 41 * i, PLAIN_TAIL))
    && At(b, 5 + 41 * ins, [outs])
    && (forall j :: 0 <= j < outs ==> At(b, 14 + 41 * ins + 43 * j, [0x22]))
    && At(b, |b| - 4, [0, 0, 0, 0])
  }

  function InputOffset(i: nat): nat { 5 + 41 * i }

  function OutputOffset(ins: nat, j: nat): nat { 6 + 41 * ins + 43 * j }

  function InAt(b: bytes, i: nat): TxIn
    requires InputOffset(i + 1) <= |b|
  {
    var o := InputOffset(i);
    TxIn(OutPoint(b[o..o + 32], Val(b[o + 32..o + 36])), [], 0xffff_fffd)
  }

  function OutAt(b: bytes, ins: nat, j: nat): TxOut
    requires OutputOffset(ins, j + 1) <= |b|
  {
    var o := OutputOffset(ins, j);
    TxOut(Val(b[o..o + 8]), b[o + 9..o + 43])
  }

  function InsAt(b: bytes, n: nat): (r: seq<TxIn>)
    requires InputOffset(n) <= |b|
    ensures |r| == n && forall i :: 0 <= i < n ==> r[i] == InAt(b, i)
  {
    if n == 0 then [] else InsAt(b, n - 1) + [InAt(b, n - 1)]
  }

  function OutsAt(b: bytes, ins: nat, n: nat): (r: seq<TxOut>)
    requires OutputOffset(ins, n) <= |b|
    ensures |r| == n && forall j :: 0 <= j < n ==> r[j] == OutAt(b, ins, j)
  {
    if n == 0 then [] else OutsAt(b, ins, n - 1) + [OutAt(b, ins, n - 1)]
  }

  function ParsePlain(b: bytes, ins: byte, outs: byte): Tx
    requires |b| == PlainSize(ins, outs)
  {
    Tx(2, InsAt(b, ins), OutsAt(b, ins, outs), 0)
  }

  lemma TailIs()
    ensures VarBytes([]) + LE(0xffff_fffd, 4) == PLAIN_TAIL
  {
    assert LE(0xffff_fffd, 4) == [0xfd] + LE(0xff_ffff, 3);
    assert LE(0xff_ffff, 3) == [0xff] + LE(0xffff, 2);
  }

  lemma PlainInEncode(b: bytes, i: nat)
    requires InputOffset(i + 1) <= |b| && At(b, 41 + 41 * i, PLAIN_TAIL)
    ensures InAt(b, i).Plain() && InAt(b, i).Encode() == b[InputOffset(i)..InputOffset(i + 1)]
  {
    hide LE, Val, Pow256, VarBytes;
    var o := InputOffset(i);
    var v := b[o + 32..o + 36];
    ValBound(v);
    ValLE(v);
    Pow256Values();
    TailIs();
    assert b[o..o + 41] == b[o..o + 32] + b[o + 32..o + 36] + b[o + 36..o + 41];
  }

  lemma PlainOutEncode(b: bytes, ins: nat, j: nat)
    requires OutputOffset(ins, j + 1) <= |b| && At(b, 14 + 41 * ins + 43 * j, [0x22])
    ensures OutAt(b, ins, j).Plain()
    ensures OutAt(b, ins, j).Encode() == b[OutputOffset(ins, j)..OutputOffset(ins, j + 1)]
  {
    var o := OutputOffset(ins, j);
    var v := b[o..o + 8];
    ValBound(v);
    ValLE(v);
    Pow256Values();
    assert b[o..o + 43] == b[o..o + 8] + (b[o + 8..o + 9] + b[o + 9..o + 43]);
  }

  lemma Join(b: bytes, i: nat, j: nat, k: nat)
    requires i <= j <= k <= |b|
    ensures b[i..k] == b[i..j] + b[j..k]
  {
  }

  lemma LastIn(b: bytes, n: nat)
    requires n > 0 && InputOffset(n) <= |b| && forall i :: 0 <= i < n ==> At(b, 41 + 41 * i, PLAIN_TAIL)
    ensures InsAt(b, n) == InsAt(b, n - 1) + [InAt(b, n - 1)]
    ensures EncodeIn(InAt(b, n - 1)) == b[InputOffset(n - 1)..InputOffset(n)]
  {
    hide At, InAt;
    PlainInEncode(b, n - 1);
  }

  lemma LastOut(b: bytes, ins: nat, n: nat)
    requires n > 0 && OutputOffset(ins, n) <= |b|
    requires forall j :: 0 <= j < n ==> At(b, 14 + 41 * ins + 43 * j, [0x22])
    ensures OutsAt(b, ins, n) == OutsAt(b, ins, n - 1) + [OutAt(b, ins, n - 1)]
    ensures EncodeOut(OutAt(b, ins, n - 1)) == b[OutputOffset(ins, n - 1)..OutputOffset(ins, n)]
  {
    hide At, OutAt;
    PlainOutEncode(b, ins, n - 1);
  }

  lemma {:induction false} PlainInsEncode(b: bytes, n: nat)
    requires InputOffset(n) <= |b|
    requires forall i :: 0 <= i < n ==> At(b, 41 + 41 * i, PLAIN_TAIL)
    ensures Concat(EncodeIn, InsAt(b, n)) == b[5..InputOffset(n)]
  {
    if n != 0 {
      hide Concat, TxIn.Encode, TxIn.Plain, At, InAt;
      PlainInsEncode(b, n - 1);
      LastIn(b, n);
      ConcatSnoc(EncodeIn, InsAt(b, n - 1), InAt(b, n - 1));
      Join(b, 5, InputOffset(n - 1), InputOffset(n));
    }
  }

  lemma {:induction false} PlainOutsEncode(b: bytes, ins: nat, n: nat)
    requires OutputOffset(ins, n) <= |b|
    requires forall j :: 0 <= j < n ==> At(b, 14 + 41 * ins + 43 * j, [0x22])
    ensures Concat(EncodeOut, OutsAt(b, ins, n)) == b[OutputOffset(ins, 0)..OutputOffset(ins, n)]
  {
    if n != 0 {
      hide Concat, TxOut.Encode, TxOut.Plain, At, OutAt;
      PlainOutsEncode(b, ins, n - 1);
      LastOut(b, ins, n);
      ConcatSnoc(EncodeOut, OutsAt(b, ins, n - 1), OutAt(b, ins, n - 1));
      Join(b, OutputOffset(ins, 0), OutputOffset(ins, n - 1), OutputOffset(ins, n));
    }
  }

  lemma VersionTwo()
    ensures LE(2, 4) == [2, 0, 0, 0] && LE(0, 4) == [0, 0, 0, 0]
  {
    LEZero(4);
    LEZero(3);
  }

  lemma CutInSix(b: bytes, i: nat, j: nat, k: nat, l: nat, m: nat)
    requires i <= j <= k <= l <= m <= |b|
    ensures b == b[..i] + (b[i..j] + (b[j..k] + (b[k..l] + (b[l..m] + b[m..]))))
  {
    assert b[l..] == b[l..m] + b[m..];
    assert b[k..] == b[k..l] + b[l..];
    assert b[j..] == b[j..k] + b[k..];
    assert b[i..] == b[i..j] + b[j..];
  }

  lemma HeaderParts(b: bytes, ins: byte)
    requires ins < 0xfd && At(b, 0, [2, 0, 0, 0, ins])
    ensures b[..4] == LE(2, 4) && b[4..5] == CompactSize(ins)
  {
    VersionTwo();
    assert b[0..5] == [2, 0, 0, 0, ins];
    assert b[..4] == b[0..5][..4] && b[4..5] == b[0..5][4..5];
  }

  lemma MarkerParts(b: bytes, ins: byte, outs: byte)
    requires ins < 0xfd && outs < 0xfd && PlainShape(b, ins, outs)
    ensures b[..4] == LE(2, 4) && b[4..5] == CompactSize(ins)
    ensures b[5 + 41 * ins..OutputOffset(ins, 0)] == CompactSize(outs)
    ensures b[OutputOffset(ins, outs)..] == LE(0, 4)
  {
    HeaderParts(b, ins);
    VersionTwo();
  }

  lemma CutPlain(b: bytes, ins: byte, outs: byte)
    requires |b| == PlainSize(ins, outs)
    ensures b == b[..4] + (b[4..5] + (b[5..5 + 41 * ins] + (b[5 + 41 * ins..OutputOffset(ins, 0)] +
                 (b[OutputOffset(ins, 0)..OutputOffset(ins, outs)] + b[OutputOffset(ins, outs)..]))))
  {
    CutInSix(b, 4, 5, 5 + 41 * ins, OutputOffset(ins, 0), OutputOffset(ins, outs));
  }

  /** A byte string with the shape is the serialization of the plain transaction read off its offsets. */
  lemma ShapeParses(b: bytes, ins: byte, outs: byte)
    requires ins < 0xfd && outs < 0xfd && PlainShape(b, ins, outs)
    ensures ParsePlain(b, ins, outs).Plain(ins, outs) && ParsePlain(b, ins, outs).Encode() == b
  {
    hide Concat, EncodeIn, EncodeOut, TxIn.Encode, TxOut.Encode, TxIn.Plain, TxOut.Plain, Tx.Encode;
    var xs, os := InsAt(b, ins), OutsAt(b, ins, outs);
    forall i | 0 <= i < ins ensures xs[i].Plain() {
      PlainInEncode(b, i);
    }
    forall j | 0 <= j < outs ensures os[j].Plain() {
      PlainOutEncode(b, ins, j);
    }
    PlainInsEncode(b, ins);
    PlainOutsEncode(b, ins, outs);
    ParsedEncode(b, ins, outs);
  }

  lemma ParsedEncode(b: bytes, ins: byte, outs: byte)
    requires ins < 0xfd && outs < 0xfd && PlainShape(b, ins, outs)
    requires Concat(EncodeIn, InsAt(b, ins)) == b[5..5 + 41 * ins]
    requires Concat(EncodeOut, OutsAt(b, ins, outs)) == b[OutputOffset(ins, 0)..OutputOffset(ins, outs)]
    ensures ParsePlain(b, ins, outs).Encode() == b
  {
    hide Concat, EncodeIn, EncodeOut, LE, CompactSize, At;
    MarkerParts(b, ins, outs);
    CutPlain(b, ins, outs);
  }

  lemma PlainIsWellFormed(t: Tx, ins: nat, outs: nat)
    requires ins < 0xfd && outs < 0xfd && t.Plain(ins, outs)
    ensures t.WellFormed()
  {
  }

  lemma Middle(a: bytes, b: bytes, c: bytes)
    ensures (a + (b + c))[|a|..|a| + |b|] == b
  {
  }

  lemma {:induction false} EncodedInsLength(xs: seq<TxIn>)
    requires forall i :: 0 <= i < |xs| ==> xs[i].Plain()
    ensures |Concat(EncodeIn, xs)| == 41 * |xs|
  {
    if xs != [] {
      EncodedInsLength(xs[..|xs| - 1]);
    }
  }

  lemma {:induction false} EncodedInsAt(xs: seq<TxIn>, r: bytes, i: nat)
    requires i < |xs| && forall i :: 0 <= i < |xs| ==> xs[i].Plain()
    ensures |Concat(EncodeIn, xs) + r| >= 41 * i + 41
    ensures (Concat(EncodeIn, xs) + r)[41 * i..41 * i + 41] == xs[i].Encode()
  {
    var n := |xs| - 1;
    EncodedInsLength(xs[..n]);
    ConcatLast(EncodeIn, xs, r);
    if i < n {
      EncodedInsAt(xs[..n], xs[n].Encode() + r, i);
    } else {
      Middle(Concat(EncodeIn, xs[..n]), xs[n].Encode(), r);
    }
  }

  lemma {:induction false} EncodedOutsLength(xs: seq<TxOut>)
    requires forall i :: 0 <= i < |xs| ==> xs[i].Plain()
    ensures |Concat(EncodeOut, xs)| == 43 * |xs|
  {
    if xs != [] {
      EncodedOutsLength(xs[..|xs| - 1]);
    }
  }

  lemma {:induction false} EncodedOutsAt(xs: seq<TxOut>, r: bytes, i: nat)
    requires i < |xs| && forall i :: 0 <= i < |xs| ==> xs[i].Plain()
    ensures |Concat(EncodeOut, xs) + r| >= 43 * i + 43
    ensures (Concat(EncodeOut, xs) + r)[43 * i..43 * i + 43] == xs[i].Encode()
  {
    var n := |xs| - 1;
    EncodedOutsLength(xs[..n]);
    ConcatLast(EncodeOut, xs, r);
    if i < n {
      EncodedOutsAt(xs[..n], xs[n].Encode() + r, i);
    } else {
      Middle(Concat(EncodeOut, xs[..n]), xs[n].Encode(), r);
    }
  }

  function OutputsPart(t: Tx): bytes { Concat(EncodeOut, t.outputs) + [0, 0, 0, 0] }

  function InputsPart(t: Tx, outs: byte): bytes { Concat(EncodeIn, t.inputs) + ([outs] + OutputsPart(t)) }

  lemma PlainHeader(t: Tx, ins: byte, outs: byte)
    requires ins < 0xfd && outs < 0xfd && t.Plain(ins, outs)
    ensures var b := t.Encode(); At(b, 0, [2, 0, 0, 0, ins]) && b[5..] == InputsPart(t, outs)
  {
    VersionTwo();
    HeaderDrop(t.Encode(), ins, InputsPart(t, outs));
  }

  lemma PlainLengths(t: Tx, ins: byte, outs: byte)
    requires ins < 0xfd && outs < 0xfd && t.Plain(ins, outs)
    ensures |Concat(EncodeIn, t.inputs)| == 41 * ins && |Concat(EncodeOut, t.outputs)| == 43 * outs
    ensures |t.Encode()| == PlainSize(ins, outs)
  {
    EncodedInsLength(t.inputs);
    EncodedOutsLength(t.outputs);
  }

  /** Where the serialization of a plain transaction keeps its parts. */
  lemma PlainParts(t: Tx, ins: byte, outs: byte)
    requires ins < 0xfd && outs < 0xfd && t.Plain(ins, outs)
    ensures var b := t.Encode();
            && |b| == PlainSize(ins, outs)
            && At(b, 0, [2, 0, 0, 0, ins]) && At(b, 5 + 41 * ins, [outs]) && At(b, |b| - 4, [0, 0, 0, 0])
            && b[5..] == InputsPart(t, outs)
            && b[OutputOffset(ins, 0)..] == OutputsPart(t)
  {
    var b := t.Encode();
    PlainLengths(t, ins, outs);
    PlainHeader(t, ins, outs);
    TailDrop(b, 5, Concat(EncodeIn, t.inputs), [outs] + OutputsPart(t));
    TailDrop(b, 5 + 41 * ins, [outs], OutputsPart(t));
    TailDrop(b, OutputOffset(ins, 0), Concat(EncodeOut, t.outputs), [0, 0, 0, 0]);
  }

  lemma PlainInputAt(t: Tx, ins: byte, outs: byte, i: nat)
    requires ins < 0xfd && outs < 0xfd && t.Plain(ins, outs) && i < ins
    ensures InputOffset(i + 1) <= |t.Encode()| == PlainSize(ins, outs)
    ensures t.Encode()[InputOffset(i)..InputOffset(i + 1)] == t.inputs[i].Encode()
  {
    hide Concat, CompactSize, LE, At;
    PlainParts(t, ins, outs);
    EncodedInsAt(t.inputs, [outs] + OutputsPart(t), i);
    Window(t.Encode(), InputsPart(t, outs), 5, 41 * i, 41);
  }

  lemma PlainOutputAt(t: Tx, ins: byte, outs: byte, j: nat)
    requires ins < 0xfd && outs < 0xfd && t.Plain(ins, outs) && j < outs
    ensures OutputOffset(ins, j + 1) <= |t.Encode()| == PlainSize(ins, outs)
    ensures t.Encode()[OutputOffset(ins, j)..OutputOffset(ins, j + 1)] == t.outputs[j].Encode()
  {
    hide Concat, CompactSize, LE, At;
    PlainParts(t, ins, outs);
    EncodedOutsAt(t.outputs, [0, 0, 0, 0], j);
    Window(t.Encode(), OutputsPart(t), OutputOffset(ins, 0), 43 * j, 43);
  }

  lemma HeaderDrop(b: bytes, ins: byte, rest: bytes)
    requires b == [2, 0, 0, 0] + ([ins] + rest)
    ensures At(b, 0, [2, 0, 0, 0, ins]) && b[5..] == rest
  {
  }

  lemma TailDrop(b: bytes, k: nat, c: bytes, d: bytes)
    requires k <= |b| && b[k..] == c + d
    ensures k + |c| <= |b| && At(b, k, c) && b[k + |c|..] == d
  {
    assert |b[k..]| == |c| + |d|;
    assert b[k..][..|c|] == c && b[k..][|c|..] == d;
  }

  lemma Window(b: bytes, c: bytes, k: nat, m: nat, n: nat)
    requires k + m + n <= |b| && b[k..] == c
    ensures b[k + m..k + m + n] == c[m..m + n]
  {
    var x, y := b[k + m..k + m + n], c[m..m + n];
    assert |x| == |y|;
    forall i | 0 <= i < |x| ensures x[i] == y[i] {
      assert c[m + i] == b[k + (m + i)];
    }
  }

  lemma PlainInputReads(t: Tx, ins: byte, outs: byte, i: nat)
    requires ins < 0xfd && outs < 0xfd && t.Plain(ins, outs) && i < ins
    ensures var b := t.Encode();
            && |b| == PlainSize(ins, outs) && InputOffset(i + 1) <= |b|
            && At(b, 41 + 41 * i, PLAIN_TAIL) && InAt(b, i) == t.inputs[i]
            && At(b, InputOffset(i), t.inputs[i].prevout.Encode())
  {
    PlainInputAt(t, ins, outs, i);
    InReads(t.Encode(), i, t.inputs[i]);
  }

  lemma PlainOutputReads(t: Tx, ins: byte, outs: byte, j: nat)
    requires ins < 0xfd && outs < 0xfd && t.Plain(ins, outs) && j < outs
    ensures var b := t.Encode();
            && |b| == PlainSize(ins, outs) && OutputOffset(ins, j + 1) <= |b|
            && At(b, 14 + 41 * ins + 43 * j, [0x22]) && OutAt(b, ins, j) == t.outputs[j]
            && At(b, OutputOffset(ins, j), LE(t.outputs[j].amount, 8))
            && At(b, OutputOffset(ins, j) + 9, t.outputs[j].spk)
  {
    PlainOutputAt(t, ins, outs, j);
    OutReads(t.Encode(), ins, j, t.outputs[j]);
  }

  /** A plain transaction serializes to the shape. */
  lemma PlainHasShape(t: Tx, ins: byte, outs: byte)
    requires ins < 0xfd && outs < 0xfd && t.Plain(ins, outs)
    ensures PlainShape(t.Encode(), ins, outs)
  {
    PlainParts(t, ins, outs);
    forall i | 0 <= i < ins ensures At(t.Encode(), 41 + 41 * i, PLAIN_TAIL) {
      PlainInputReads(t, ins, outs, i);
    }
    forall j | 0 <= j < outs ensures At(t.Encode(), 14 + 41 * ins + 43 * j, [0x22]) {
      PlainOutputReads(t, ins, outs, j);
    }
  }

  /** Every offset the programs slice reads the field it is meant to. */
  lemma PlainFields(t: Tx, ins: byte, outs: byte)
    requires ins < 0xfd && outs < 0xfd && t.Plain(ins, outs)
    ensures FieldsRead(t, ins, outs)
  {
    var b := t.Encode();
    forall i | 0 <= i < ins ensures At(b, InputOffset(i), t.inputs[i].prevout.Encode()) {
      PlainInputReads(t, ins, outs, i);
    }
    forall j | 0 <= j < outs
      ensures At(b, OutputOffset(ins, j), LE(t.outputs[j].amount, 8))
      ensures At(b, OutputOffset(ins, j) + 9, t.outputs[j].spk)
    {
      PlainOutputReads(t, ins, outs, j);
    }
  }

  lemma ParseIsInverse(t: Tx, ins: byte, outs: byte)
    requires ins < 0xfd && outs < 0xfd && t.Plain(ins, outs)
    ensures |t.Encode()| == PlainSize(ins, outs) && ParsePlain(t.Encode(), ins, outs) == t
  {
    var b := t.Encode();
    PlainParts(t, ins, outs);
    forall i | 0 <= i < ins ensures InsAt(b, ins)[i] == t.inputs[i] {
      PlainInputReads(t, ins, outs, i);
    }
    forall j | 0 <= j < outs ensures OutsAt(b, ins, outs)[j] == t.outputs[j] {
      PlainOutputReads(t, ins, outs, j);
    }
  }

  /** The offsets the programs slice hold the prevouts, amounts and scripts of `t`. */
  ghost predicate FieldsRead(t: Tx, ins: byte, outs: byte)
    requires t.Plain(ins, outs)
  {
    var b := t.Encode();
    && (forall i :: 0 <= i < ins ==> At(b, InputOffset(i), t.inputs[i].prevout.Encode()))
    && (forall j :: 0 <= j < outs ==>
         && At(b, OutputOffset(ins, j), LE(t.outputs[j].amount, 8))
         && At(b, OutputOffset(ins, j) + 9, t.outputs[j].spk))
  }

  lemma InReads(b: bytes, i: nat, x: TxIn)
    requires InputOffset(i + 1) <= |b| && x.Plain() && b[InputOffset(i)..InputOffset(i + 1)] == x.Encode()
    ensures At(b, 41 + 41 * i, PLAIN_TAIL) && InAt(b, i) == x && At(b, InputOffset(i), x.prevout.Encode())
  {
    var o := InputOffset(i);
    var e := x.Encode();
    assert LE(0xffff_fffd, 4) == [0xfd, 0xff, 0xff, 0xff] by {
      assert LE(0xffff_fffd, 4) == [0xfd] + LE(0xff_ffff, 3);
      assert LE(0xff_ffff, 3) == [0xff] + LE(0xffff, 2);
    }
    assert VarBytes([]) + LE(0xffff_fffd, 4) == PLAIN_TAIL;
    assert b[o..o + 36] == e[..36] && b[o + 36..o + 41] == e[36..];
    assert b[o..o + 32] == e[..32] == x.prevout.txid && b[o + 32..o + 36] == e[32..36] == LE(x.prevout.vout, 4);
    Pow256Values();
    LEVal(x.prevout.vout, 4);
  }

  lemma OutReads(b: bytes, ins: nat, j: nat, x: TxOut)
    requires OutputOffset(ins, j + 1) <= |b| && x.Plain()
    requires b[OutputOffset(ins, j)..OutputOffset(ins, j + 1)] == x.Encode()
    ensures At(b, 14 + 41 * ins + 43 * j, [0x22]) && OutAt(b, ins, j) == x
    ensures At(b, OutputOffset(ins, j), LE(x.amount, 8)) && At(b, OutputOffset(ins, j) + 9, x.spk)
  {
    var o := OutputOffset(ins, j);
    var e := x.Encode();
    assert e == LE(x.amount, 8) + ([0x22] + x.spk);
    assert b[o..o + 8] == e[..8] && b[o + 8..o + 9] == e[8..9] && b[o + 9..o + 43] == e[9..];
    Pow256Values();
    LEVal(x.amount, 8);
  }

  /** The fixed-offset checks are a parser: passing them is the same as being the serialization of a plain
      transaction, which is then the only well-formed transaction with that serialization. */
  lemma ShapeIsSerialization(b: bytes, ins: byte, outs: byte)
    requires ins < 0xfd && outs < 0xfd
    ensures PlainShape(b, ins, outs) <==> exists t: Tx :: t.Plain(ins, outs) && t.Encode() == b
    ensures forall t: Tx, u: Tx ::
              PlainShape(b, ins, outs) && t.WellFormed() && t.Encode() == b && u.WellFormed() && u.Encode() == b
              ==> t == u && t.Plain(ins, outs)
  {
    if PlainShape(b, ins, outs) {
      ShapeParses(b, ins, outs);
      var p := ParsePlain(b, ins, outs);
      PlainIsWellFormed(p, ins, outs);
      forall t: Tx | t.WellFormed() && t.Encode() == b ensures t == p {
        EncodeInjective(t, p);
      }
    }
    forall t: Tx | t.Plain(ins, outs) && t.Encode() == b ensures PlainShape(b, ins, outs) {
      PlainHasShape(t, ins, outs);
    }
  }
}
