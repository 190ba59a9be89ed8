// The flat Script machine: byte-level pushes and opcodes, a main stack, an alternate stack, a stack of conditions and
// whatever other opcodes remember. Only the opcodes that the bridge emits are given a meaning; the meaning of every
// other opcode, those of the appended verifier among them, is a parameter.
module Script {
  import opened Bytes
  import opened Transactions

  const OP_IF: byte := 0x63
  const OP_ELSE: byte := 0x67
  const OP_ENDIF: byte := 0x68
  const OP_VERIFY: byte := 0x69
  const OP_TOALTSTACK: byte := 0x6b
  const OP_FROMALTSTACK: byte := 0x6c
  const OP_DEPTH: byte := 0x74
  const OP_DROP: byte := 0x75
  const OP_NIP: byte := 0x77
  const OP_OVER: byte := 0x78
  const OP_PICK: byte := 0x79
  const OP_SWAP: byte := 0x7c
  const OP_CAT: byte := 0x7e
  const OP_SUBSTR: byte := 0x7f
  const OP_LEFT: byte := 0x80
  const OP_SIZE: byte := 0x82
  const OP_AND: byte := 0x84
  const OP_EQUALVERIFY: byte := 0x88
  const OP_ADD: byte := 0x93
  const OP_SUB: byte := 0x94
  const OP_NUMEQUAL: byte := 0x9c
  const OP_NUMEQUALVERIFY: byte := 0x9d
  const OP_WITHIN: byte := 0xa5
  const OP_SHA256: byte := 0xa8
  const OP_HASH256: byte := 0xaa
  const OP_CHECKSIG: byte := 0xac
  const OP_TX: byte := 0xbd
  const OP_TWEAKADD: byte := 0xbe

  // Version-zero OP_TX selectors; collection scopes are ALL.
  const TX_SHAPE: bytes := [0x00, 0x57, 0x00, 0x00, 0x00, 0x00]
  const PREVOUTS: bytes := [0x00, 0x01, 0x00, 0x20, 0x03, 0x00]
  const AMOUNTS: bytes := [0x00, 0x01, 0x00, 0x20, 0x04, 0x00]
  const SPKS: bytes := [0x00, 0x01, 0x00, 0x20, 0x08, 0x00]
  const SCRIPT_SIGS: bytes := [0x00, 0x01, 0x00, 0x20, 0x10, 0x00]
  const SEQUENCES: bytes := [0x00, 0x01, 0x00, 0x20, 0x20, 0x00]
  const CURRENT_INDEX: bytes := [0x00, 0x01, 0x01, 0x00, 0x00, 0x00]
  const ANNEX: bytes := [0x00, 0x00, 0x02, 0x00, 0x00, 0x00]
  const OUTPUTS: bytes := [0x00, 0x01, 0x00, 0x02, 0x00, 0x03]

  /** Any function on byte strings can stand for SHA256: its results are brought to 32 bytes. */
  type Hash = bytes -> bytes

  function Sha(h: Hash, x: bytes): (d: bytes)
    ensures |d| == 32
    ensures |h(x)| == 32 ==> d == h(x)
  {
    (h(x) + Zeros(32))[..32]
  }

  /** What a running input can see of the transaction: the transaction, the outputs it spends, its index. */
  datatype Context = Context(tx: Tx, spent: seq<TxOut>, index: nat, annex: bytes)

  /** The primitives left uninterpreted. `cut` is what an out-of-range substring yields, which may be a
      failure or a clamped string: no result may depend on it. `other` is what every opcode without a meaning here does
      to the whole machine, executed or skipped. */
  datatype World = World(
    sha: Hash,
    tweak: (bytes, bytes) -> Option<bytes>,
    sig: (bytes, bytes, Context) -> bool,
    cut: (bytes, nat, nat) -> Option<bytes>,
    other: (byte, Machine, Context) -> Option<Machine>,
    ctx: Context)

  function Hash256(sha: Hash, b: bytes): (d: bytes)
    ensures |d| == 32
  {
    Sha(sha, Sha(sha, b))
  }

  // ---------- numbers and bits ----------

  /** Python's `CScript([n])` number payload: minimal little-endian with room for a sign bit. */
  function SignedNum(n: nat): bytes {
    var m := Minimal(n);
    if m != [] && m[|m| - 1] >= 0x80 then m + [0] else m
  }

  lemma SignedNumVal(n: nat)
    ensures Val(SignedNum(n)) == n
  {
    MinimalVal(n);
    assert Zeros(1) == [0];
    ValZeroes(Minimal(n), 1);
  }

  function BitAnd(a: nat, b: nat): nat {
    if a == 0 || b == 0 then 0 else 2 * BitAnd(a / 2, b / 2) + (if a % 2 == 1 && b % 2 == 1 then 1 else 0)
  }

  lemma {:induction false} BitAndBound(a: nat, b: nat)
    ensures BitAnd(a, b) <= a
  {
    if a != 0 && b != 0 {
      BitAndBound(a / 2, b / 2);
    }
  }

  function And(a: bytes, b: bytes): (r: bytes)
    requires |a| == |b|
    ensures |r| == |a|
  {
    if a == [] then [] else (BitAndBound(a[0], b[0]); [BitAnd(a[0], b[0])] + And(a[1..], b[1..]))
  }

  predicate IsTrue(b: bytes) { b != Zeros(|b|) }

  function Bool(b: bool): bytes { if b then [1] else [] }

  function Substr(w: World, b: bytes, start: nat, len: nat): Option<bytes> {
    if start + len <= |b| then Some(b[start..start + len]) else w.cut(b, start, len)
  }

  // ---------- OP_TX ----------

  function EncodePrevout(i: TxIn): bytes { i.prevout.Encode() }
  function EncodeScriptSig(i: TxIn): bytes { VarBytes(i.scriptSig) }
  function EncodeSequence(i: TxIn): bytes { LE(i.sequence, 4) }
  function EncodeAmount(o: TxOut): bytes { LE(o.amount, 8) }
  function EncodeSpk(o: TxOut): bytes { VarBytes(o.spk) }

  function Prevouts(c: Context): bytes { Concat(EncodePrevout, c.tx.inputs) }
  function Amounts(c: Context): bytes { Concat(EncodeAmount, c.spent) }
  function Spks(c: Context): bytes { Concat(EncodeSpk, c.spent) }
  function Shape(c: Context): bytes {
    LE(c.tx.version, 4) + LE(c.tx.locktime, 4) + LE(|c.tx.inputs|, 4) + LE(|c.tx.outputs|, 4)
  }

  function TxField(c: Context, selector: bytes): Option<bytes> {
    if selector == TX_SHAPE then Some(Shape(c))
    else if selector == PREVOUTS then Some(Prevouts(c))
    else if selector == AMOUNTS then Some(Amounts(c))
    else if selector == SPKS then Some(Spks(c))
    else if selector == SCRIPT_SIGS then Some(Concat(EncodeScriptSig, c.tx.inputs))
    else if selector == SEQUENCES then Some(Concat(EncodeSequence, c.tx.inputs))
    else if selector == CURRENT_INDEX then Some(LE(c.index, 4))
    else if selector == ANNEX then Some(c.annex)
    else if selector == OUTPUTS then Some(Concat(EncodeOut, c.tx.outputs))
    else None
  }

  // ---------- opcodes ----------

  /** How many items a stack-local opcode reads; other opcodes are not local. */
  function Reads(code: byte): Option<nat> {
    if code in {OP_DROP, OP_SIZE, OP_SHA256, OP_HASH256, OP_VERIFY, OP_TX} then Some(1)
    else if code in {OP_SWAP, OP_NIP, OP_OVER, OP_CAT, OP_LEFT, OP_AND, OP_EQUALVERIFY, OP_ADD, OP_SUB,
                     OP_NUMEQUAL, OP_NUMEQUALVERIFY, OP_CHECKSIG, OP_TWEAKADD} then Some(2)
    else if code in {OP_SUBSTR, OP_WITHIN} then Some(3)
    else None
  }

  function Guarded(ok: bool): Option<seq<bytes>> { if ok then Some([]) else None }

  function Wrap(b: Option<bytes>): Option<seq<bytes>> {
    match b case Some(x) => Some([x]) case None => None
  }

  function Local1(code: byte, a: bytes, w: World): Option<seq<bytes>> {
    if code == OP_DROP then Some([])
    else if code == OP_SIZE then Some([a, Minimal(|a|)])
    else if code == OP_SHA256 then Some([Sha(w.sha, a)])
    else if code == OP_HASH256 then Some([Hash256(w.sha, a)])
    else if code == OP_VERIFY then Guarded(IsTrue(a))
    else if code == OP_TX then Wrap(TxField(w.ctx, a))
    else None
  }

  function Local2(code: byte, a: bytes, b: bytes, w: World): Option<seq<bytes>> {
    if code == OP_SWAP then Some([b, a])
    else if code == OP_NIP then Some([b])
    else if code == OP_OVER then Some([a, b, a])
    else if code == OP_CAT then Some([a + b])
    else if code == OP_LEFT then Wrap(Substr(w, a, 0, Val(b)))
    else if code == OP_AND then if |a| == |b| then Some([And(a, b)]) else None
    else if code == OP_EQUALVERIFY then Guarded(a == b)
    else if code == OP_ADD then Some([Minimal(Val(a) + Val(b))])
    else if code == OP_SUB then if Val(b) <= Val(a) then Some([Minimal(Val(a) - Val(b))]) else None
    else if code == OP_NUMEQUAL then Some([Bool(Val(a) == Val(b))])
    else if code == OP_NUMEQUALVERIFY then Guarded(Val(a) == Val(b))
    else if code == OP_CHECKSIG then
      if w.sig(a, b, w.ctx) then Some([[1]]) else if a == [] then Some([[]]) else None
    else if code == OP_TWEAKADD then Wrap(w.tweak(a, b))
    else None
  }

  function Local3(code: byte, a: bytes, b: bytes, c: bytes, w: World): Option<seq<bytes>> {
    if code == OP_SUBSTR then Wrap(Substr(w, a, Val(b), Val(c)))
    else if code == OP_WITHIN then Some([Bool(Val(b) <= Val(a) < Val(c))])
    else None
  }

  function Local(code: byte, a: seq<bytes>, w: World): Option<seq<bytes>> {
    if |a| == 1 then Local1(code, a[0], w)
    else if |a| == 2 then Local2(code, a[0], a[1], w)
    else if |a| == 3 then Local3(code, a[0], a[1], a[2], w)
    else None
  }

  /** A main-stack opcode; the top of the stack is the end of the sequence. */
  function Exec(code: byte, st: seq<bytes>, w: World): Option<seq<bytes>> {
    var n := |st|;
    if code == OP_DEPTH then Some(st + [Minimal(n)])
    else if code == OP_PICK then
      if n >= 1 && Val(st[n - 1]) + 2 <= n then Some(st[..n - 1] + [st[n - 2 - Val(st[n - 1])]]) else None
    else match Reads(code)
      case None => None
      case Some(k) =>
        if n < k then None
        else match Local(code, st[n - k..], w)
          case None => None
          case Some(out) => Some(st[..n - k] + out)
  }

  // ---------- instructions and the machine ----------

  datatype Instr = Data(data: bytes) | Small(n: byte) | Op(code: byte) {
    predicate WellFormed() {
      match this
      case Data(b) => |b| < U32
      case Small(n) => 1 <= n <= 16
      case Op(c) => c > 0x4e && !(0x51 <= c <= 0x60)
    }
  }

  /** `memory` stands for what other opcodes keep besides the stacks, such as defined functions and counters; a script
      starts with none. */
  datatype Machine = Machine(stack: seq<bytes>, alt: seq<bytes>, conds: seq<bool>, memory: bytes := []) {
    predicate Executing() { forall i :: 0 <= i < |conds| ==> conds[i] }
  }

  /** The opcodes given a meaning here. */
  predicate Known(code: byte) {
    || code in {OP_IF, OP_ELSE, OP_ENDIF, OP_TOALTSTACK, OP_FROMALTSTACK, OP_DEPTH, OP_PICK}
    || Reads(code).Some?
  }

  function Step(i: Instr, m: Machine, w: World): Option<Machine> {
    var c, n := m.conds, |m.stack|;
    if i == Op(OP_IF) then
      if !m.Executing() then Some(m.(conds := c + [false]))
      else if n == 0 then None
      else Some(m.(stack := m.stack[..n - 1], conds := c + [IsTrue(m.stack[n - 1])]))
    else if i == Op(OP_ELSE) then
      if c == [] then None else Some(m.(conds := c[..|c| - 1] + [!c[|c| - 1]]))
    else if i == Op(OP_ENDIF) then
      if c == [] then None else Some(m.(conds := c[..|c| - 1]))
    else if i.Op? && !Known(i.code) then w.other(i.code, m, w.ctx)
    else if !m.Executing() then Some(m)
    else match i
      case Data(b) => Some(m.(stack := m.stack + [b]))
      case Small(k) => Some(m.(stack := m.stack + [[k]]))
      case Op(code) =>
        if code == OP_TOALTSTACK then
          if n == 0 then None else Some(m.(stack := m.stack[..n - 1], alt := m.alt + [m.stack[n - 1]]))
        else if code == OP_FROMALTSTACK then
          var k := |m.alt|;
          if k == 0 then None else Some(m.(stack := m.stack + [m.alt[k - 1]], alt := m.alt[..k - 1]))
        else match Exec(code, m.stack, w)
          case None => None
          case Some(st) => Some(m.(stack := st))
  }

  function Run(code: seq<Instr>, m: Machine, w: World): Option<Machine> {
    if code == [] then Some(m)
    else match Step(code[0], m, w)
      case None => None
      case Some(m') => Run(code[1..], m', w)
  }

  function AndThen(r: Option<Machine>, code: seq<Instr>, w: World): Option<Machine> {
    match r case None => None case Some(m) => Run(code, m, w)
  }

  lemma {:induction false} RunAppend(p: seq<Instr>, q: seq<Instr>, m: Machine, w: World)
    ensures Run(p + q, m, w) == AndThen(Run(p, m, w), q, w)
  {
    if p == [] {
      assert p + q == q;
    } else {
      assert (p + q)[0] == p[0] && (p + q)[1..] == p[1..] + q;
      match Step(p[0], m, w)
      case None =>
      case Some(m') => RunAppend(p[1..], q, m', w);
    }
  }

  lemma RunOne(i: Instr, m: Machine, w: World)
    ensures Run([i], m, w) == Step(i, m, w)
  {
    assert [i][1..] == [];
  }

  // ---------- bytes ----------

  /** Only pushes shorter than 2^32 bytes are encodable; a longer one is never parsed back. */
  function PushBytes(b: bytes): bytes {
    if |b| < 0x4c then [|b|] + b
    else if |b| <= 0xff then [0x4c] + LE(|b|, 1) + b
    else if |b| <= 0xffff then [0x4d] + LE(|b|, 2) + b
    else [0x4e] + LE(|b|, 4) + b
  }

  function Encode(i: Instr): bytes {
    match i
    case Data(b) => PushBytes(b)
    case Small(n) => [if n <= 16 then 0x50 + n else 0x50]
    case Op(c) => [c]
  }

  predicate AllWellFormed(code: seq<Instr>) { forall i :: 0 <= i < |code| ==> code[i].WellFormed() }

  function Assemble(code: seq<Instr>): bytes {
    if code == [] then [] else Encode(code[0]) + Assemble(code[1..])
  }

  /** `GetOp`: the next instruction and the rest of the script. */
  function ParseOne(b: bytes): (r: Option<(Instr, bytes)>)
    requires b != []
    ensures r.Some? ==> |r.value.1| < |b| && r.value.0.WellFormed()
  {
    var c := b[0];
    if c < 0x4c then ParsePush(b, 1, c)
    else if c <= 0x4e then
      var w := if c == 0x4c then 1 else if c == 0x4d then 2 else 4;
      if |b| < 1 + w then None
      else
        ValBound(b[1..1 + w]);
        Pow256Values();
        assert Pow256(2) == 0x1_0000;
        ParsePush(b, 1 + w, Val(b[1..1 + w]))
    else if 0x51 <= c <= 0x60 then Some((Small(c - 0x50), b[1..]))
    else Some((Op(c), b[1..]))
  }

  function ParsePush(b: bytes, start: nat, len: nat): Option<(Instr, bytes)>
    requires start <= |b|
  {
    if |b| < start + len then None else Some((Data(b[start..start + len]), b[start + len..]))
  }

  function Parse(b: bytes): Option<seq<Instr>> {
    if b == [] then Some([])
    else match ParseOne(b)
      case None => None
      case Some((i, rest)) =>
        match Parse(rest) case None => None case Some(is') => Some([i] + is')
  }

  lemma ParseEncoded(i: Instr, rest: bytes)
    requires i.WellFormed()
    ensures var b := Encode(i) + rest; b != [] && ParseOne(b) == Some((i, rest))
  {
    var b := Encode(i) + rest;
    if i.Data? {
      var d := i.data;
      var n := |d|;
      if n < 0x4c {
        assert b == [n] + (d + rest);
        assert b[1..1 + n] == d && b[1 + n..] == rest;
      } else {
        var w := if n <= 0xff then 1 else if n <= 0xffff then 2 else 4;
        var c: byte := if n <= 0xff then 0x4c else if n <= 0xffff then 0x4d else 0x4e;
        PushHeader(b, c, n, w, d, rest);
      }
    } else {
      assert b[1..] == rest;
    }
  }

  lemma PushHeader(b: bytes, c: byte, n: nat, w: nat, d: bytes, rest: bytes)
    requires b == [c] + LE(n, w) + d + rest && |d| == n && 1 <= w <= 4 && w != 3
    requires w == 1 ==> n < 0x100
    requires w == 2 ==> n < 0x1_0000
    requires w == 4 ==> n < U32
    ensures b[0] == c && |b| >= 1 + w + n && Val(b[1..1 + w]) == n
    ensures b[1 + w..1 + w + n] == d && b[1 + w + n..] == rest
  {
    assert b[1..1 + w] == LE(n, w);
    assert Pow256(2) == 0x1_0000;
    Pow256Values();
    LEVal(n, w);
  }

  function Prefixed(code: seq<Instr>, r: Option<seq<Instr>>): Option<seq<Instr>> {
    match r case None => None case Some(tail) => Some(code + tail)
  }

  /** Assembling and parsing are inverse, also in front of other script bytes. */
  lemma {:induction false} ParseAssembled(code: seq<Instr>, rest: bytes)
    requires AllWellFormed(code)
    ensures Parse(Assemble(code) + rest) == Prefixed(code, Parse(rest))
  {
    if code == [] {
      assert Assemble(code) + rest == rest;
      if Parse(rest).Some? {
        assert code + Parse(rest).value == Parse(rest).value;
      }
    } else {
      ParseAssembled(code[1..], rest);
      ParseStep(code, rest);
      PrefixedStep(code, Parse(rest));
    }
  }

  lemma ParseStep(code: seq<Instr>, rest: bytes)
    requires code != [] && code[0].WellFormed()
    ensures Parse(Assemble(code) + rest) == Prefixed([code[0]], Parse(Assemble(code[1..]) + rest))
  {
    hide ParseOne, Encode;
    var e, a := Encode(code[0]), Assemble(code[1..]);
    assert (e + a) + rest == e + (a + rest);
    ParseEncoded(code[0], a + rest);
  }

  lemma PrefixedStep(code: seq<Instr>, r: Option<seq<Instr>>)
    requires code != []
    ensures Prefixed([code[0]], Prefixed(code[1..], r)) == Prefixed(code, r)
  {
    if r.Some? {
      assert code + r.value == [code[0]] + (code[1..] + r.value);
    }
  }

  lemma {:induction false} AssembleAppend(p: seq<Instr>, q: seq<Instr>)
    ensures Assemble(p + q) == Assemble(p) + Assemble(q)
  {
    if p == [] {
      assert p + q == q;
      assert Assemble(p) + Assemble(q) == Assemble(q);
    } else {
      var rest := p[1..];
      assert (p + q)[1..] == rest + q && (p + q)[0] == p[0];
      AssembleAppend(rest, q);
      var e, a, b := Encode(p[0]), Assemble(rest), Assemble(q);
      assert e + (a + b) == (e + a) + b;
    }
  }

  lemma AssembleOne(i: Instr)
    ensures Assemble([i]) == Encode(i)
  {
    assert [i][1..] == [];
    assert Encode(i) + [] == Encode(i);
  }

  /** A script below 2^32 bytes holds no push that long. */
  lemma {:induction false} ShortPushes(code: seq<Instr>)
    requires |Assemble(code)| < U32
    ensures forall i :: 0 <= i < |code| && code[i].Data? ==> |code[i].data| < U32
  {
    if code != [] {
      assert |Assemble(code)| == |Encode(code[0])| + |Assemble(code[1..])|;
      ShortPushes(code[1..]);
    }
  }

  /** A script held as bytes runs by parsing it; a malformed script fails. */
  function RunBytes(script: bytes, m: Machine, w: World): Option<Machine> {
    match Parse(script) case None => None case Some(code) => Run(code, m, w)
  }

  lemma RunAssembled(code: seq<Instr>, m: Machine, w: World)
    requires AllWellFormed(code)
    ensures RunBytes(Assemble(code), m, w) == Run(code, m, w)
  {
    ParseAssembled(code, []);
    assert Assemble(code) + [] == Assemble(code) && code + [] == code;
  }
}
