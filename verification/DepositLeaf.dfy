// The deposit leaf: its bytes as the host concatenates them, the instructions they parse to, and the two paths
// those instructions take.
module DepositLeaf {
  import opened Bytes
  import opened Transactions
  import opened Script
  import opened Building
  import opened Calls
  import opened TxContext
  import opened Linearization
  import opened Deposit

  const NUMS_INTERNAL_KEY: bytes := [
    0x50, 0x92, 0x9b, 0x74, 0xc1, 0xa0, 0x49, 0x54, 0xb7, 0x8b, 0x4b, 0x60, 0x35, 0xe9, 0x7a, 0x5e,
    0x07, 0x8a, 0x5a, 0x0f, 0x28, 0xec, 0x96, 0xd5, 0x47, 0xbf, 0xee, 0x9a, 0xce, 0x80, 0x3a, 0xc0]

  /** What a leaf commits to. */
  datatype Leaf = Leaf(spk: bytes, bridgeId: bytes, recipient: nat, key: bytes, refund: bytes) {
    predicate Valid() {
      |spk| == 34 && |bridgeId| == 32 && recipient < 3 && |key| == 32 && |refund| == 32
    }
  }

  // ---------- bytes ----------

  function BeforeBridge(recipient: nat, key: bytes): bytes {
    PushBytes(LE(recipient, 4)) + [OP_TOALTSTACK] + PushBytes(key) + [OP_TOALTSTACK] + [0x20]
  }

  const BEFORE_SPK: bytes := [OP_TOALTSTACK, 0x22]

  const BEFORE_REFUND: bytes := [OP_TOALTSTACK, OP_IF, OP_FROMALTSTACK, OP_DROP, OP_FROMALTSTACK, OP_DROP,
                                 OP_FROMALTSTACK, OP_DROP, OP_FROMALTSTACK, OP_DROP, 0x20]

  function AfterRefund(): bytes {
    [OP_CHECKSIG, OP_ELSE, OP_FROMALTSTACK, OP_FROMALTSTACK, OP_FROMALTSTACK, OP_FROMALTSTACK] + BodyBytes()
      + [OP_ENDIF]
  }

  /** `deposit_leaf` once the recipient part is chosen; the bridge program builds the same concatenation. */
  function Joined6(before: bytes, bridgeId: bytes, spk: bytes, refund: bytes): bytes {
    before + bridgeId + BEFORE_SPK + spk + BEFORE_REFUND + refund + AfterRefund()
  }

  function LeafBytes(l: Leaf): bytes {
    Joined6(BeforeBridge(l.recipient, l.key), l.bridgeId, l.spk, l.refund)
  }

  function LeafSize(): nat { 159 + |BodyBytes()| }

  lemma LeafLength(l: Leaf)
    requires l.Valid()
    ensures |BeforeBridge(l.recipient, l.key)| == 41 && |LeafBytes(l)| == LeafSize()
  {
    hide BodyBytes, LE;
    BeforeIs(l.recipient, l.key);
    assert |AfterRefund()| == 7 + |BodyBytes()|;
    assert |BEFORE_REFUND| == 11 && |BEFORE_SPK| == 2;
  }

  lemma BeforeIs(r: nat, k: bytes)
    requires |k| == 32
    ensures BeforeBridge(r, k) == [4] + (LE(r, 4) + ([OP_TOALTSTACK, 0x20] + (k + [OP_TOALTSTACK, 0x20])))
  {
    hide LE;
    var a := LE(r, 4);
    assert PushBytes(a) == [4] + a && PushBytes(k) == [0x20] + k;
  }

  /** `_deposit_fixed_parts`: the constant parts of a leaf, or a refusal. */
  method DepositFixedParts(recipient: nat, key: bytes) returns (parts: Option<(bytes, bytes, bytes)>)
    ensures parts.Some? <==> recipient < 3 && |key| == 32
    ensures parts.Some? ==> parts.value == (BeforeBridge(recipient, key), BEFORE_SPK + BEFORE_REFUND, AfterRefund())
  {
    if recipient >= 3 || |key| != 32 {
      return None;
    }
    var prefix := PushBytes(LE(recipient, 4));
    prefix := prefix + [OP_TOALTSTACK];
    prefix := prefix + PushBytes(key);
    prefix := prefix + [OP_TOALTSTACK];
    var body := DepositCollectionBody();
    var after := [OP_CHECKSIG, OP_ELSE, OP_FROMALTSTACK, OP_FROMALTSTACK, OP_FROMALTSTACK, OP_FROMALTSTACK] + body
        + [OP_ENDIF];
    parts := Some((prefix + [0x20], BEFORE_SPK + BEFORE_REFUND, after));
  }

  /** `deposit_leaf`: the leaf bytes, or a refusal of fields of the wrong size. */
  method DepositLeafBytesOf(l: Leaf) returns (leaf: Option<bytes>)
    ensures leaf == if l.Valid() then Some(LeafBytes(l)) else None
  {
    hide BodyBytes, BeforeBridge, AfterRefund;
    if |l.spk| != 34 || |l.bridgeId| != 32 || |l.refund| != 32 {
      return None;
    }
    var parts := DepositFixedParts(l.recipient, l.key);
    if parts.None? {
      return None;
    }
    var (before, between, after) := parts.value;
    assert between[..2] == BEFORE_SPK && between[2..] == BEFORE_REFUND;
    leaf := Some(before + l.bridgeId + between[..2] + l.spk + between[2..] + l.refund + after);
  }

  /** The five committed fields are recoverable from the bytes. */
  lemma LeafInjective(l: Leaf, m: Leaf)
    requires l.Valid() && m.Valid() && LeafBytes(l) == LeafBytes(m)
    ensures l == m
  {
    hide AfterRefund, BeforeBridge;
    var a, b := BeforeBridge(l.recipient, l.key), BeforeBridge(m.recipient, m.key);
    LeafLength(l);
    LeafLength(m);
    Peel(a + l.bridgeId + BEFORE_SPK + l.spk + BEFORE_REFUND + l.refund, AfterRefund(),
         b + m.bridgeId + BEFORE_SPK + m.spk + BEFORE_REFUND + m.refund, AfterRefund());
    Peel(a + l.bridgeId + BEFORE_SPK + l.spk + BEFORE_REFUND, l.refund,
         b + m.bridgeId + BEFORE_SPK + m.spk + BEFORE_REFUND, m.refund);
    Peel(a + l.bridgeId + BEFORE_SPK + l.spk, BEFORE_REFUND, b + m.bridgeId + BEFORE_SPK + m.spk, BEFORE_REFUND);
    Peel(a + l.bridgeId + BEFORE_SPK, l.spk, b + m.bridgeId + BEFORE_SPK, m.spk);
    Peel(a + l.bridgeId, BEFORE_SPK, b + m.bridgeId, BEFORE_SPK);
    Peel(a, l.bridgeId, b, m.bridgeId);
    BeforeInjective(l.recipient, l.key, m.recipient, m.key);
  }

  lemma BeforeInjective(r: nat, k: bytes, s: nat, j: bytes)
    requires r < 3 && s < 3 && |k| == 32 && |j| == 32 && BeforeBridge(r, k) == BeforeBridge(s, j)
    ensures r == s && k == j
  {
    hide LE, BeforeBridge;
    BeforeIs(r, k);
    BeforeIs(s, j);
    var t: bytes := [OP_TOALTSTACK, 0x20];
    Peel([4], LE(r, 4) + (t + (k + t)), [4], LE(s, 4) + (t + (j + t)));
    Peel(LE(r, 4), t + (k + t), LE(s, 4), t + (j + t));
    Peel(t, k + t, t, j + t);
    Peel(k, t, j, t);
    Pow256Values();
    LEInjective(r, s, 4);
  }

  // ---------- instructions ----------

  function StashCode(l: Leaf): seq<Instr> {
    [Data(LE(l.recipient, 4)), Op(OP_TOALTSTACK)] + [Data(l.key), Op(OP_TOALTSTACK)] +
    [Data(l.bridgeId), Op(OP_TOALTSTACK)] + [Data(l.spk), Op(OP_TOALTSTACK)]
  }

  const FORGET: seq<Instr> := [Op(OP_FROMALTSTACK), Op(OP_DROP)]

  function RefundCode(refund: bytes): seq<Instr> {
    FORGET + FORGET + FORGET + FORGET + [Data(refund), Op(OP_CHECKSIG)]
  }

  const UNSTASH: seq<Instr> := [Op(OP_FROMALTSTACK), Op(OP_FROMALTSTACK)]

  function CollectCode(): seq<Instr> { UNSTASH + UNSTASH + BodyCode() }

  function LeafCode(l: Leaf): seq<Instr> {
    StashCode(l) + ([Op(OP_IF)] + RefundCode(l.refund) + [Op(OP_ELSE)] + CollectCode() + [Op(OP_ENDIF)])
  }

  lemma AssembleTwo(i: Instr, j: Instr)
    ensures Assemble([i, j]) == Encode(i) + Encode(j)
  {
    assert [i, j] == [i] + [j];
    AssembleAppend([i], [j]);
    AssembleOne(i);
    AssembleOne(j);
  }

  lemma AssemblePushStash(x: bytes)
    requires |x| < 0x4c
    ensures Assemble([Data(x), Op(OP_TOALTSTACK)]) == [|x|] + x + [OP_TOALTSTACK] && PushBytes(x) == [|x|] + x
  {
    AssembleTwo(Data(x), Op(OP_TOALTSTACK));
  }

  lemma AssembleStash(l: Leaf)
    requires l.Valid()
    ensures Assemble(StashCode(l)) ==
            BeforeBridge(l.recipient, l.key) + l.bridgeId + BEFORE_SPK + l.spk + [OP_TOALTSTACK]
  {
    hide LE, Assemble;
    var t := Op(OP_TOALTSTACK);
    var a: seq<Instr>, b: seq<Instr> := [Data(LE(l.recipient, 4)), t], [Data(l.key), t];
    var c: seq<Instr>, d: seq<Instr> := [Data(l.bridgeId), t], [Data(l.spk), t];
    AssemblePushStash(LE(l.recipient, 4));
    AssemblePushStash(l.key);
    AssemblePushStash(l.bridgeId);
    AssemblePushStash(l.spk);
    AssembleAppend(a, b);
    AssembleAppend(a + b, c);
    AssembleAppend(a + b + c, d);
    var before := PushBytes(LE(l.recipient, 4)) + [OP_TOALTSTACK] + PushBytes(l.key) + [OP_TOALTSTACK];
    assert Assemble(a + b) == before;
    assert before + ([0x20] + l.bridgeId + [OP_TOALTSTACK]) + ([0x22] + l.spk + [OP_TOALTSTACK]) ==
           before + [0x20] + l.bridgeId + BEFORE_SPK + l.spk + [OP_TOALTSTACK];
  }

  lemma AssembleRefund(refund: bytes)
    requires |refund| == 32
    ensures Assemble(RefundCode(refund)) == BEFORE_REFUND[2..] + refund + [OP_CHECKSIG]
  {
    var f: bytes := [OP_FROMALTSTACK, OP_DROP];
    var last: seq<Instr> := [Data(refund), Op(OP_CHECKSIG)];
    hide Assemble;
    AssembleTwo(Op(OP_FROMALTSTACK), Op(OP_DROP));
    AssembleTwo(Data(refund), Op(OP_CHECKSIG));
    assert Assemble(FORGET) == f;
    AssembleAppend(FORGET, FORGET);
    AssembleAppend(FORGET + FORGET, FORGET);
    AssembleAppend(FORGET + FORGET + FORGET, FORGET);
    AssembleAppend(FORGET + FORGET + FORGET + FORGET, last);
    assert f + f + f + f + ([0x20] + refund + [OP_CHECKSIG]) == BEFORE_REFUND[2..] + refund + [OP_CHECKSIG];
  }

  lemma AssembleCollect()
    ensures Assemble(CollectCode()) ==
            [OP_FROMALTSTACK, OP_FROMALTSTACK, OP_FROMALTSTACK, OP_FROMALTSTACK] + BodyBytes()
  {
    hide Assemble, BodyCode;
    AssembleTwo(Op(OP_FROMALTSTACK), Op(OP_FROMALTSTACK));
    AssembleAppend(UNSTASH, UNSTASH);
    AssembleAppend(UNSTASH + UNSTASH, BodyCode());
  }

  /** The host's concatenation is the assembly of these instructions. */
  lemma LeafAssembled(l: Leaf)
    requires l.Valid()
    ensures Assemble(LeafCode(l)) == LeafBytes(l)
  {
    hide StashCode, RefundCode, CollectCode, BodyBytes, BeforeBridge, Assemble;
    var i: seq<Instr>, e: seq<Instr>, n: seq<Instr> := [Op(OP_IF)], [Op(OP_ELSE)], [Op(OP_ENDIF)];
    var r, c := RefundCode(l.refund), CollectCode();
    AssembleOne(Op(OP_IF));
    AssembleOne(Op(OP_ELSE));
    AssembleOne(Op(OP_ENDIF));
    AssembleAppend(i, r);
    AssembleAppend(i + r, e);
    AssembleAppend(i + r + e, c);
    AssembleAppend(i + r + e + c, n);
    AssembleAppend(StashCode(l), i + r + e + c + n);
    AssembleStash(l);
    AssembleRefund(l.refund);
    AssembleCollect();
    LeafConcat(BeforeBridge(l.recipient, l.key) + l.bridgeId + BEFORE_SPK + l.spk, l.refund);
  }

  lemma LeafConcat(head: bytes, refund: bytes)
    ensures (head + [OP_TOALTSTACK]) +
            ([OP_IF] + (BEFORE_REFUND[2..] + refund + [OP_CHECKSIG]) + [OP_ELSE] +
             ([OP_FROMALTSTACK, OP_FROMALTSTACK, OP_FROMALTSTACK, OP_FROMALTSTACK] + BodyBytes()) + [OP_ENDIF]) ==
            head + BEFORE_REFUND + refund + AfterRefund()
  {
    hide BodyBytes;
    var body := BodyBytes();
    var f: bytes := [OP_FROMALTSTACK, OP_FROMALTSTACK, OP_FROMALTSTACK, OP_FROMALTSTACK];
    assert BEFORE_REFUND == [OP_TOALTSTACK] + ([OP_IF] + BEFORE_REFUND[2..]);
    assert AfterRefund() == [OP_CHECKSIG] + ([OP_ELSE] + (f + body) + [OP_ENDIF]);
  }

  // ---------- the two paths ----------

  lemma StashOne(x: bytes, m: Machine, w: World)
    requires m.Executing()
    ensures Run([Data(x), Op(OP_TOALTSTACK)], m, w) == Some(m.(alt := m.alt + [x]))
  {
    RunTwo(Data(x), Op(OP_TOALTSTACK), m, w);
    var pushed := m.stack + [x];
    assert pushed[..|pushed| - 1] == m.stack;
  }

  lemma StashRuns(l: Leaf, m: Machine, w: World)
    requires m.Executing() && m.alt == []
    ensures Run(StashCode(l), m, w) == Some(m.(alt := [LE(l.recipient, 4), l.key, l.bridgeId, l.spk]))
  {
    hide Run, Step, LE;
    var t := Op(OP_TOALTSTACK);
    var r := LE(l.recipient, 4);
    var a: seq<Instr>, b: seq<Instr> := [Data(r), t], [Data(l.key), t];
    var c: seq<Instr>, d: seq<Instr> := [Data(l.bridgeId), t], [Data(l.spk), t];
    StashOne(r, m, w);
    StashOne(l.key, m.(alt := [r]), w);
    StashOne(l.bridgeId, m.(alt := [r, l.key]), w);
    StashOne(l.spk, m.(alt := [r, l.key, l.bridgeId]), w);
    assert [] + [r] == [r] && [r] + [l.key] == [r, l.key] && [r, l.key] + [l.bridgeId] == [r, l.key, l.bridgeId];
    assert [r, l.key, l.bridgeId] + [l.spk] == [r, l.key, l.bridgeId, l.spk];
    RunAppend(a, b, m, w);
    RunAppend(a + b, c, m, w);
    RunAppend(a + b + c, d, m, w);
  }

  lemma UnstashTwo(m: Machine, w: World)
    requires m.Executing() && |m.alt| >= 2
    ensures var n := |m.alt|;
            Run(UNSTASH, m, w) == Some(m.(stack := m.stack + [m.alt[n - 1], m.alt[n - 2]], alt := m.alt[..n - 2]))
  {
    var n := |m.alt|;
    RunTwo(Op(OP_FROMALTSTACK), Op(OP_FROMALTSTACK), m, w);
    assert m.alt[..n - 1][..n - 2] == m.alt[..n - 2];
    assert m.stack + [m.alt[n - 1]] + [m.alt[n - 2]] == m.stack + [m.alt[n - 1], m.alt[n - 2]];
  }

  lemma ForgetOne(m: Machine, w: World)
    requires m.Executing() && m.alt != []
    ensures Run(FORGET, m, w) == Some(m.(alt := m.alt[..|m.alt| - 1]))
  {
    RunTwo(Op(OP_FROMALTSTACK), Op(OP_DROP), m, w);
    var top := m.alt[|m.alt| - 1];
    var pushed := m.stack + [top];
    assert pushed[..|pushed| - 1] == m.stack && pushed[|pushed| - 1..] == [top];
    assert m.stack + [] == m.stack;
  }

  lemma CollectRuns(m: Machine, w: World, a: bytes, b: bytes, c: bytes, d: bytes)
    requires m.Executing() && m.alt == [a, b, c, d]
    ensures Run(CollectCode(), m, w) == Run(BodyCode(), m.(stack := m.stack + [d, c, b, a], alt := []), w)
  {
    hide Run, Step, BodyCode;
    UnstashTwo(m, w);
    var m1 := m.(stack := m.stack + [d, c], alt := [a, b]);
    assert [a, b, c, d][..2] == [a, b];
    UnstashTwo(m1, w);
    assert m1.stack + [b, a] == m.stack + [d, c, b, a];
    RunAppend(UNSTASH, UNSTASH, m, w);
    RunAppend(UNSTASH + UNSTASH, BodyCode(), m, w);
  }

  /** The signature check of the refund path. */
  function Signed(st: seq<bytes>, refund: bytes, m: Machine, w: World): Option<Machine> {
    match Exec(OP_CHECKSIG, st + [refund], w)
    case None => None
    case Some(r) => Some(m.(stack := r, alt := []))
  }

  lemma RefundRuns(refund: bytes, m: Machine, w: World)
    requires m.Executing() && |m.alt| == 4
    ensures Run(RefundCode(refund), m, w) == Signed(m.stack, refund, m, w)
  {
    hide Run, Step, Exec;
    var last: seq<Instr> := [Data(refund), Op(OP_CHECKSIG)];
    var m1, m2, m3, m4 := m.(alt := m.alt[..3]), m.(alt := m.alt[..2]), m.(alt := m.alt[..1]), m.(alt := []);
    assert m.alt[..3][..2] == m.alt[..2] && m.alt[..2][..1] == m.alt[..1] && m.alt[..1][..0] == [];
    ForgetOne(m, w);
    ForgetOne(m1, w);
    ForgetOne(m2, w);
    ForgetOne(m3, w);
    RunAppend(FORGET, FORGET, m, w);
    RunAppend(FORGET + FORGET, FORGET, m, w);
    RunAppend(FORGET + FORGET + FORGET, FORGET, m, w);
    RunAppend(FORGET + FORGET + FORGET + FORGET, last, m, w);
    RunTwo(Data(refund), Op(OP_CHECKSIG), m4, w);
    SignStep(refund, m4, w);
  }

  lemma SignStep(refund: bytes, m: Machine, w: World)
    requires m.Executing() && m.alt == []
    ensures Step(Data(refund), m, w) == Some(m.(stack := m.stack + [refund]))
    ensures Step(Op(OP_CHECKSIG), m.(stack := m.stack + [refund]), w) == Signed(m.stack, refund, m, w)
  {
    hide Exec;
  }

  /** A push, or an opcode with a meaning that is no conditional. */
  predicate Straight(i: Instr) { i !in {Op(OP_IF), Op(OP_ELSE), Op(OP_ENDIF)} && (i.Op? ==> Known(i.code)) }

  /** Straight-line code that is switched off does nothing. */
  lemma {:induction false} StraightSkips(code: seq<Instr>, m: Machine, w: World)
    requires !m.Executing() && forall i :: 0 <= i < |code| ==> Straight(code[i])
    ensures Run(code, m, w) == Some(m)
  {
    if code != [] {
      assert Straight(code[0]);
      StraightSkips(code[1..], m, w);
    }
  }

  predicate BodyCompiled() { Legal(BodyCalls(), BODY_NAMES) && NamesAfter(BodyCalls(), BODY_NAMES) == [Anon] }

  lemma CollectSkips(m: Machine, w: World)
    requires !m.Executing() && BodyCompiled()
    ensures Run(CollectCode(), m, w) == Some(m)
  {
    hide Run, Step, BodyCalls, Emit, Legal;
    StraightSkips(UNSTASH + UNSTASH, m, w);
    EmitSkips(BodyCalls(), BODY_NAMES, m, w);
    RunAppend(UNSTASH + UNSTASH, BodyCode(), m, w);
  }

  lemma RefundSkips(refund: bytes, m: Machine, w: World)
    requires !m.Executing()
    ensures Run(RefundCode(refund), m, w) == Some(m)
  {
    StraightSkips(RefundCode(refund), m, w);
  }

  /** Whatever lies below the flag: a false flag enters the collection body with exactly the four committed
      items pushed above the witness; a true flag reaches the signature check with an empty alternate stack and
      nothing else changed. */
  lemma LeafRuns(l: Leaf, st: seq<bytes>, flag: bytes, w: World)
    requires BodyCompiled()
    ensures var r := Run(LeafCode(l), Machine(st + [flag], [], []), w);
            && (!IsTrue(flag) ==>
                 var m := Machine(st + [l.spk, l.bridgeId, l.key, LE(l.recipient, 4)], [], [true]);
                 r == Leave(Run(BodyCode(), m, w), []))
            && (IsTrue(flag) ==> r == Signed(st, l.refund, Machine(st, [], []), w))
  {
    hide Run, Step, StashCode, CollectCode, RefundCode, BodyCode, BodyCompiled, LE, Signed;
    var m := Machine(st + [flag], [], []);
    var a := [LE(l.recipient, 4), l.key, l.bridgeId, l.spk];
    var stashed := m.(alt := a);
    StashRuns(l, m, w);
    var y, n := RefundCode(l.refund), CollectCode();
    RunAppend(StashCode(l), [Op(OP_IF)] + y + [Op(OP_ELSE)] + n + [Op(OP_ENDIF)], m, w);
    assert (st + [flag])[..|st|] == st;
    var on, off := Machine(st, a, [true]), Machine(st, a, [false]);
    assert [] + [true] == [true] && [] + [false] == [false];
    assert !off.Executing() by { assert !off.conds[0]; }
    if IsTrue(flag) {
      RefundTaken(l, st, w);
      BranchTaken(y, n, stashed, w);
      SignedLeaves(st, l.refund, on, w);
    } else {
      RefundSkips(l.refund, off, w);
      CollectRuns(on, w, a[0], a[1], a[2], a[3]);
      CollectKeepsConds(on.(stack := st + [a[3], a[2], a[1], a[0]], alt := []), w);
      BranchNotTaken(y, n, stashed, w);
    }
  }

  lemma SignedLeaves(st: seq<bytes>, refund: bytes, m: Machine, w: World)
    requires m.stack == st && m.memory == []
    ensures Leave(Signed(st, refund, m, w), []) == Signed(st, refund, Machine(st, [], []), w)
  {
    hide Exec;
  }

  lemma CollectKeepsConds(m: Machine, w: World)
    requires BodyCompiled() && m.Executing()
    ensures Run(BodyCode(), m, w).Some? ==> Run(BodyCode(), m, w).value.conds == m.conds
  {
    hide Run, Step, BodyCalls, Emit, Legal, NamesAfter;
    if Run(BodyCode(), m, w).Some? {
      Balanced(BodyCalls(), BODY_NAMES, m, w);
    }
  }

  lemma RefundTaken(l: Leaf, st: seq<bytes>, w: World)
    requires BodyCompiled()
    ensures var on := Machine(st, [LE(l.recipient, 4), l.key, l.bridgeId, l.spk], [true]);
            var r := Run(RefundCode(l.refund), on, w);
            && r == Signed(st, l.refund, on, w)
            && (r.Some? ==> r.value.conds == [true] &&
                            Run(CollectCode(), r.value.(conds := [false]), w) == Some(r.value.(conds := [false])))
  {
    hide Run, Step, RefundCode, CollectCode, LE, BodyCompiled, Exec;
    var on := Machine(st, [LE(l.recipient, 4), l.key, l.bridgeId, l.spk], [true]);
    RefundRuns(l.refund, on, w);
    var r := Run(RefundCode(l.refund), on, w);
    if r.Some? {
      var off := r.value.(conds := [false]);
      assert !off.Executing() by { assert !off.conds[0]; }
      CollectSkips(off, w);
    }
  }

  // ---------- spending a deposit ----------

  /** A tapscript run that ends well: all branches closed and a single true item. */
  predicate Accepted(r: Option<Machine>) {
    r.Some? && r.value.conds == [] && |r.value.stack| == 1 && IsTrue(r.value.stack[0])
  }

  lemma LeafWellFormed(l: Leaf)
    requires l.Valid() && BodyCompiled() && LeafSize() < U32
    ensures AllWellFormed(LeafCode(l))
  {
    hide Emit, BodyCalls, Legal, NamesAfter, LE, Assemble;
    EmitOpcodes(BodyCalls(), BODY_NAMES);
    LeafAssembled(l);
    LeafLength(l);
    ShortPushes(LeafCode(l));
    var n := LeafCode(l);
    forall i | 0 <= i < |n| ensures n[i].Data? || n[i].WellFormed() {
      LeafInstr(l, i);
    }
  }

  lemma LeafInstr(l: Leaf, i: nat)
    requires i < |LeafCode(l)|
    requires forall j :: 0 <= j < |BodyCode()| ==> BodyCode()[j].Data? || BodyCode()[j].WellFormed()
    ensures LeafCode(l)[i].Data? || LeafCode(l)[i].WellFormed()
  {
    hide BodyCode, LE;
    var head := StashCode(l) + ([Op(OP_IF)] + RefundCode(l.refund) + [Op(OP_ELSE)] + (UNSTASH + UNSTASH));
    assert LeafCode(l) == head + BodyCode() + [Op(OP_ENDIF)];
    assert forall k :: 0 <= k < |head| ==> head[k].Data? || head[k].WellFormed();
  }

  /** An empty witness stack is rejected. */
  lemma EmptyWitnessFails(l: Leaf, w: World)
    ensures Run(LeafCode(l), Machine([], [], []), w).None?
  {
    hide StashCode, RefundCode, CollectCode, LE;
    var m := Machine([], [], []);
    StashRuns(l, m, w);
    var rest := [Op(OP_IF)] + RefundCode(l.refund) + [Op(OP_ELSE)] + CollectCode() + [Op(OP_ENDIF)];
    RunAppend(StashCode(l), rest, m, w);
    assert rest[0] == Op(OP_IF);
  }

  /** For every witness stack: a deposit spent without the refund flag was given exactly a predecessor, an old
      state and the flag, in a transaction that collects it into its own bridge; and all such spends succeed. */
  lemma CollectPathMeans(l: Leaf, wit: seq<bytes>, w: World)
    requires l.Valid() && BodyCompiled() && LeafSize() < U32 && WellFormed(w.ctx)
    requires wit != [] && !IsTrue(wit[|wit| - 1])
    ensures Accepted(RunBytes(LeafBytes(l), Machine(wit, [], []), w)) <==>
            |wit| == 3 && Collectible(w, wit[0], wit[1], l.spk, l.bridgeId)
  {
    hide Run, LeafCode, LeafBytes, BodyCompiled, Collectible, RunBytes;
    var st, flag := wit[..|wit| - 1], wit[|wit| - 1];
    SplitLast(wit);
    LeafWellFormed(l);
    LeafAssembled(l);
    RunAssembled(LeafCode(l), Machine(wit, [], []), w);
    CollectPathRuns(l, st, flag, w);
    if |st| == 2 {
      assert wit[0] == st[0] && wit[1] == st[1];
    }
  }

  /** For every witness stack: a deposit spent with the refund flag was given exactly a signature under the refund
      key and the flag, whatever the transaction; and all such spends succeed. */
  lemma RefundPathMeans(l: Leaf, wit: seq<bytes>, w: World)
    requires l.Valid() && BodyCompiled() && LeafSize() < U32
    requires wit != [] && IsTrue(wit[|wit| - 1])
    ensures Accepted(RunBytes(LeafBytes(l), Machine(wit, [], []), w)) <==> |wit| == 2 && w.sig(wit[0], l.refund, w.ctx)
  {
    hide Run, LeafCode, LeafBytes, BodyCompiled, RunBytes, LE;
    var st, flag := wit[..|wit| - 1], wit[|wit| - 1];
    SplitLast(wit);
    LeafWellFormed(l);
    LeafAssembled(l);
    RunAssembled(LeafCode(l), Machine(wit, [], []), w);
    LeafRuns(l, st, flag, w);
    SignedMeans(st, l.refund, Machine(st, [], []), w);
    if |wit| == 2 {
      assert st[0] == wit[0];
    }
  }

  lemma SignedMeans(st: seq<bytes>, refund: bytes, m: Machine, w: World)
    requires m.conds == []
    ensures Accepted(Signed(st, refund, m, w)) <==> |st| == 1 && w.sig(st[0], refund, w.ctx)
  {
    OneIsTrue();
    assert !IsTrue([]) by { BoolTrue(false); }
    var x := st + [refund];
    if |st| >= 1 {
      assert x[|x| - 2..] == [st[|st| - 1], refund] && x[..|x| - 2] == st[..|st| - 1];
    }
  }

  lemma SplitLast(wit: seq<bytes>)
    requires wit != []
    ensures wit == wit[..|wit| - 1] + [wit[|wit| - 1]]
  {
  }

  lemma CollectPathRuns(l: Leaf, st: seq<bytes>, flag: bytes, w: World)
    requires l.Valid() && BodyCompiled() && WellFormed(w.ctx) && !IsTrue(flag)
    ensures Accepted(Run(LeafCode(l), Machine(st + [flag], [], []), w)) <==>
            |st| == 2 && Collectible(w, st[0], st[1], l.spk, l.bridgeId)
  {
    hide Run, LeafCode, BodyCode, BodyCompiled, LE, Collectible, IsTrue;
    LeafRuns(l, st, flag, w);
    var m := Machine(st + [l.spk, l.bridgeId, l.key, LE(l.recipient, 4)], [], [true]);
    if Run(BodyCode(), m, w).Some? {
      BodyHeight(m, w);
    }
    if |st| == 2 {
      assert m.stack == [st[0], st[1], l.spk, l.bridgeId, l.key, LE(l.recipient, 4)];
      BodyRuns(st[0], st[1], l.spk, l.bridgeId, l.key, LE(l.recipient, 4), m, w);
      OneIsTrue();
    }
  }

  lemma OneIsTrue()
    ensures IsTrue([1])
  {
    assert Zeros(1)[0] == 0;
  }

  lemma BodyHeight(m: Machine, w: World)
    requires BodyCompiled() && m.Executing() && Run(BodyCode(), m, w).Some?
    ensures |Run(BodyCode(), m, w).value.stack| + 5 == |m.stack|
  {
    hide Run, Step, BodyCalls, Emit, Legal, NamesAfter;
    Balanced(BodyCalls(), BODY_NAMES, m, w);
  }

  lemma BodyRuns(parent: bytes, oldState: bytes, spk: bytes, bridgeId: bytes, key: bytes, recipient: bytes,
                 m: Machine, w: World)
    requires BodyCompiled() && m.Executing() && m.stack == [parent, oldState, spk, bridgeId, key, recipient]
    requires WellFormed(w.ctx) && |key| == 32 && |recipient| == 4
    ensures Run(BodyCode(), m, w) ==
            if Collectible(w, parent, oldState, spk, bridgeId) then Some(m.(stack := [[1]])) else None
  {
    hide Run, Step, BodyCalls, Emit, Legal, NamesAfter, Collectible, Eval;
    var e := BodyEnv([], parent, oldState, spk, bridgeId, key, recipient);
    BodyNames([], parent, oldState, spk, bridgeId, key, recipient, w);
    assert Flat(e) == m.stack;
    Correct(BodyCalls(), e, m, w);
    BodyMeans([], parent, oldState, spk, bridgeId, key, recipient, w);
    assert Flat(Bind(Base([]), Anon, [1])) == [[1]];
  }

  // ---------- the output script of a leaf ----------

  const TAP_LEAF: bytes := [0x54, 0x61, 0x70, 0x4c, 0x65, 0x61, 0x66]
  const TAP_TWEAK: bytes := [0x54, 0x61, 0x70, 0x54, 0x77, 0x65, 0x61, 0x6b]

  function TagPrefix(sha: Hash, tag: bytes): bytes { Sha(sha, tag) + Sha(sha, tag) }

  /** The tagged leaf preimage of BIP 341, with the leaf's own length. */
  function LeafPreimage(sha: Hash, script: bytes): bytes {
    TagPrefix(sha, TAP_LEAF) + [LEAF_VERSION] + CompactSize(|script|) + script
  }

  /** The tagged tweak preimage over the internal key and a one-leaf tree. */
  function TweakPreimage(sha: Hash, script: bytes): bytes {
    TagPrefix(sha, TAP_TWEAK) + NUMS_INTERNAL_KEY + Sha(sha, LeafPreimage(sha, script))
  }

  /** The 34-byte output script committing to one leaf under the internal key without a known secret. */
  function TapSpk(w: World, script: bytes): Option<bytes> {
    match w.tweak(Sha(w.sha, TweakPreimage(w.sha, script)), NUMS_INTERNAL_KEY)
    case None => None
    case Some(q) => Some([0x51, 0x20] + q)
  }
}
