// The statement a proof attests: the bytes the account relation serializes and the Script programs slice.
module Statements {
  import opened Bytes
  import opened Transactions

  /** `coins-gsr-v1/statement/regtest` and a zero byte. */
  const STATEMENT_DOMAIN: bytes := [
    0x63, 0x6f, 0x69, 0x6e, 0x73, 0x2d, 0x67, 0x73, 0x72, 0x2d, 0x76, 0x31,
    0x2f, 0x73, 0x74, 0x61, 0x74, 0x65, 0x6d, 0x65, 0x6e, 0x74,
    0x2f, 0x72, 0x65, 0x67, 0x74, 0x65, 0x73, 0x74, 0x00]

  const PROTOCOL_VERSION: byte := 1
  const COLLECT_TWO: byte := 1
  const TRANSFER_WITHDRAW: byte := 2

  datatype Header = Header(bridgeId: bytes, prevout: OutPoint, oldRoot: bytes, newRoot: bytes, oldBacking: nat,
                           newBacking: nat) {
    predicate WellFormed() {
      |bridgeId| == 32 && prevout.WellFormed() && |oldRoot| == 32 && |newRoot| == 32 && oldBacking < U64
        && newBacking < U64
    }
  }

  datatype Record = Record(outpoint: OutPoint, value: nat, recipient: nat, key: bytes) {
    predicate WellFormed() { outpoint.WellFormed() && value < U64 && recipient < U32 && |key| == 32 }

    function Encode(): bytes { outpoint.Encode() + LE(value, 8) + LE(recipient, 4) + key }
  }

  datatype Statement = CollectTwo(h: Header, a: Record, b: Record)
                     | TransferWithdraw(h: Header, native: bytes, scoped: bytes, withdrawal: bytes, payout: TxOut) {
    predicate WellFormed() {
      && h.WellFormed()
      && match this
         case CollectTwo(_, a, b) => a.WellFormed() && b.WellFormed()
         case TransferWithdraw(_, n, s, d, o) => |n| == 32 && |s| == 32 && |d| == 32 && o.Plain()
    }

    function Encode(): bytes {
      match this
      case CollectTwo(h, a, b) => Prefix(COLLECT_TWO, h) + a.Encode() + b.Encode()
      case TransferWithdraw(h, n, s, d, o) => Prefix(TRANSFER_WITHDRAW, h) + n + s + d + o.Encode()
    }
  }

  function Marker(action: byte): bytes { STATEMENT_DOMAIN + [PROTOCOL_VERSION] + [action] }

  /** `statement_prefix`: the part common to both actions. */
  function Prefix(action: byte, h: Header): bytes {
    Marker(action) + h.bridgeId + h.prevout.Encode() + h.oldRoot + h.newRoot + LE(h.oldBacking, 8) + LE(h.newBacking, 8)
  }

  // ---------- pieces at offsets ----------

  lemma AtJoin(b: bytes, o: nat, x: bytes, y: bytes)
    ensures At(b, o, x + y) <==> At(b, o, x) && At(b, o + |x|, y)
  {
    var n := |x|;
    if At(b, o, x + y) {
      assert b[o..o + n] == b[o..o + n + |y|][..n];
      assert b[o + n..o + n + |y|] == b[o..o + n + |y|][n..];
    }
    if At(b, o, x) && At(b, o + n, y) {
      assert b[o..o + n + |y|] == b[o..o + n] + b[o + n..o + n + |y|];
    }
  }

  lemma WholeAt(b: bytes, x: bytes)
    ensures b == x <==> |b| == |x| && At(b, 0, x)
  {
    if |b| == |x| {
      assert b[0..0 + |x|] == b;
    }
  }

  lemma PrefixLength(action: byte, h: Header)
    requires h.WellFormed()
    ensures |Prefix(action, h)| == 181
  {
    hide LE;
    assert |STATEMENT_DOMAIN| == 31;
    assert |h.prevout.Encode()| == 36;
  }

  /** The prefix is present exactly when each of its fields stands at its offset. */
  lemma PrefixAt(b: bytes, action: byte, h: Header)
    requires h.WellFormed()
    ensures At(b, 0, Prefix(action, h)) <==>
            && At(b, 0, Marker(action)) && At(b, 33, h.bridgeId) && At(b, 65, h.prevout.Encode())
            && At(b, 101, h.oldRoot)
            && At(b, 133, h.newRoot) && At(b, 165, LE(h.oldBacking, 8)) && At(b, 173, LE(h.newBacking, 8))
  {
    hide LE, At;
    var m, v := Marker(action), h.prevout.Encode();
    var o, n := LE(h.oldBacking, 8), LE(h.newBacking, 8);
    assert |m| == 33 by { assert |STATEMENT_DOMAIN| == 31; }
    assert |v| == 36;
    AtJoin(b, 0, m + h.bridgeId + v + h.oldRoot + h.newRoot + o, n);
    AtJoin(b, 0, m + h.bridgeId + v + h.oldRoot + h.newRoot, o);
    AtJoin(b, 0, m + h.bridgeId + v + h.oldRoot, h.newRoot);
    AtJoin(b, 0, m + h.bridgeId + v, h.oldRoot);
    AtJoin(b, 0, m + h.bridgeId, v);
    AtJoin(b, 0, m, h.bridgeId);
  }

  lemma RecordAt(b: bytes, o: nat, r: Record)
    requires r.WellFormed()
    ensures |r.Encode()| == 80
    ensures At(b, o, r.Encode()) <==>
            && At(b, o, r.outpoint.Encode()) && At(b, o + 36, LE(r.value, 8)) && At(b, o + 44, LE(r.recipient, 4))
            && At(b, o + 48, r.key)
  {
    hide LE, At;
    var p, v, n := r.outpoint.Encode(), LE(r.value, 8), LE(r.recipient, 4);
    assert |p| == 36;
    AtJoin(b, o, p + v + n, r.key);
    AtJoin(b, o, p + v, n);
    AtJoin(b, o, p, v);
  }

  /** A collection statement is its prefix and its two records, and nothing else. */
  lemma CollectionAt(b: bytes, s: Statement)
    requires s.WellFormed() && s.CollectTwo?
    ensures |s.Encode()| == 341
    ensures b == s.Encode() <==>
            |b| == 341 && At(b, 0, Prefix(COLLECT_TWO, s.h)) && At(b, 181, s.a.Encode()) && At(b, 261, s.b.Encode())
  {
    hide At, Prefix;
    PrefixLength(COLLECT_TWO, s.h);
    RecordAt(b, 0, s.a);
    RecordAt(b, 0, s.b);
    WholeAt(b, s.Encode());
    AtJoin(b, 0, Prefix(COLLECT_TWO, s.h) + s.a.Encode(), s.b.Encode());
    AtJoin(b, 0, Prefix(COLLECT_TWO, s.h), s.a.Encode());
  }

  lemma SettlementAt(b: bytes, s: Statement)
    requires s.WellFormed() && s.TransferWithdraw?
    ensures |s.Encode()| == 320
    ensures b == s.Encode() <==>
            && |b| == 320 && At(b, 0, Prefix(TRANSFER_WITHDRAW, s.h)) && At(b, 181, s.native) && At(b, 213, s.scoped)
            && At(b, 245, s.withdrawal) && At(b, 277, LE(s.payout.amount, 8)) && At(b, 285, [0x22])
            && At(b, 286, s.payout.spk)
  {
    hide At, Prefix, LE;
    var q, v := Prefix(TRANSFER_WITHDRAW, s.h), LE(s.payout.amount, 8);
    PrefixLength(TRANSFER_WITHDRAW, s.h);
    assert s.payout.Encode() == v + ([0x22] + s.payout.spk);
    WholeAt(b, s.Encode());
    AtJoin(b, 0, q + s.native + s.scoped + s.withdrawal, s.payout.Encode());
    AtJoin(b, 0, q + s.native + s.scoped, s.withdrawal);
    AtJoin(b, 0, q + s.native, s.scoped);
    AtJoin(b, 0, q, s.native);
    AtJoin(b, 277, v, [0x22] + s.payout.spk);
    AtJoin(b, 285, [0x22], s.payout.spk);
  }

  // ---------- unique decoding ----------

  lemma AtSame(b: bytes, o: nat, x: bytes, y: bytes)
    requires |x| == |y| && At(b, o, x) && At(b, o, y)
    ensures x == y
  {
  }

  lemma PrefixInjective(b: bytes, a: byte, h: Header, a': byte, h': Header)
    requires h.WellFormed() && h'.WellFormed() && At(b, 0, Prefix(a, h)) && At(b, 0, Prefix(a', h'))
    ensures a == a' && h == h'
  {
    hide Prefix, LE;
    PrefixAt(b, a, h);
    PrefixAt(b, a', h');
    AtSame(b, 0, Marker(a), Marker(a'));
    assert Marker(a)[32] == Marker(a')[32] by { assert |STATEMENT_DOMAIN| == 31; }
    OutPointPeel(h.prevout, h'.prevout, [], []);
    Pow256Values();
    LEInjective(h.oldBacking, h'.oldBacking, 8);
    LEInjective(h.newBacking, h'.newBacking, 8);
  }

  lemma RecordInjective(b: bytes, o: nat, r: Record, r': Record)
    requires r.WellFormed() && r'.WellFormed() && At(b, o, r.Encode()) && At(b, o, r'.Encode())
    ensures r == r'
  {
    hide LE;
    RecordAt(b, o, r);
    RecordAt(b, o, r');
    OutPointPeel(r.outpoint, r'.outpoint, [], []);
    Pow256Values();
    LEInjective(r.value, r'.value, 8);
    LEInjective(r.recipient, r'.recipient, 4);
  }

  /** Equal statement bytes mean the same action with the same fields. */
  lemma StatementInjective(s: Statement, u: Statement)
    requires s.WellFormed() && u.WellFormed() && s.Encode() == u.Encode()
    ensures s == u
  {
    hide Prefix, LE;
    var b := s.Encode();
    if s.CollectTwo? { CollectionAt(b, s); } else { SettlementAt(b, s); }
    if u.CollectTwo? { CollectionAt(b, u); } else { SettlementAt(b, u); }
    PrefixInjective(b, if s.CollectTwo? then COLLECT_TWO else TRANSFER_WITHDRAW, s.h,
                    if u.CollectTwo? then COLLECT_TWO else TRANSFER_WITHDRAW, u.h);
    if s.CollectTwo? {
      RecordInjective(b, 181, s.a, u.a);
      RecordInjective(b, 261, s.b, u.b);
    } else {
      Pow256Values();
      LEInjective(s.payout.amount, u.payout.amount, 8);
    }
  }
}
