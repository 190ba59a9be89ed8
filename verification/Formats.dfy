// Every hashed or signed byte string field by field, with tags, markers and offsets written out.
module Formats {
  import opened Bytes
  import opened Transactions
  import opened Statements
  import opened Script
  import opened Building
  import opened Linearization
  import opened Deposit
  import opened DepositLeaf
  import opened Accounts
  import opened Transitions

  /** The bytes of an ASCII text. */
  function Ascii(s: string): (b: bytes)
    ensures |b| == |s|
  {
    seq(|s|, i requires 0 <= i < |s| => s[i] as int % 256)
  }

  lemma SevenPieces(a: bytes, b: bytes, c: bytes, d: bytes, e: bytes, f: bytes, g: bytes)
    ensures var w, x, y, z := |a| + |b|, |a| + |b| + |c|, |a| + |b| + |c| + |d|, |a| + |b| + |c| + |d| + |e|;
            var s := a + b + c + d + e + f + g;
            && At(s, 0, a) && At(s, |a|, b) && At(s, w, c) && At(s, x, d) && At(s, y, e) && At(s, z, f)
            && At(s, z + |f|, g) && |s| == z + |f| + |g|
  {
    hide At;
    var s := a + b + c + d + e + f + g;
    AtJoin(s, 0, a + b + c + d + e + f, g);
    AtJoin(s, 0, a + b + c + d + e, f);
    AtJoin(s, 0, a + b + c + d, e);
    AtJoin(s, 0, a + b + c, d);
    AtJoin(s, 0, a + b, c);
    AtJoin(s, 0, a, b);
    WholeAt(s, s);
  }

  // ---------- tags and domains ----------

  lemma TapTags()
    ensures TAP_LEAF == Ascii("TapLeaf") && TAP_TWEAK == Ascii("TapTweak")
  {
  }

  lemma AccountDomain()
    ensures ACCOUNT_ROOT_DOMAIN == Ascii("coins-gsr-v1/accounts") + [0]
  {
  }

  lemma StatementDomain()
    ensures STATEMENT_DOMAIN == Ascii("coins-gsr-v1/statement/regtest") + [0]
  {
  }

  lemma TransferDomain()
    ensures TRANSFER_AUTH_DOMAIN == Ascii("coins-gsr-v1/transfer-auth/regtest") + [0]
  {
  }

  lemma WithdrawalDomain()
    ensures WITHDRAWAL_DOMAIN == Ascii("coins-gsr-v1/withdrawal/regtest") + [0]
  {
  }

  /** The opcodes by their bytes. */
  lemma OpcodeBytes()
    ensures OP_IF == 0x63 && OP_ELSE == 0x67 && OP_ENDIF == 0x68 && OP_VERIFY == 0x69
    ensures OP_TOALTSTACK == 0x6b && OP_FROMALTSTACK == 0x6c && OP_DEPTH == 0x74 && OP_DROP == 0x75 && OP_NIP == 0x77
    ensures OP_OVER == 0x78 && OP_PICK == 0x79 && OP_SWAP == 0x7c && OP_CAT == 0x7e && OP_SUBSTR == 0x7f
            && OP_LEFT == 0x80
    ensures OP_SIZE == 0x82 && OP_AND == 0x84 && OP_EQUALVERIFY == 0x88 && OP_ADD == 0x93 && OP_SUB == 0x94
    ensures OP_NUMEQUAL == 0x9c && OP_NUMEQUALVERIFY == 0x9d && OP_WITHIN == 0xa5 && OP_SHA256 == 0xa8
    ensures OP_HASH256 == 0xaa && OP_CHECKSIG == 0xac && OP_TX == 0xbd && OP_TWEAKADD == 0xbe
  {
  }

  /** The fields OP_TX reads, by their selectors. */
  lemma TxFields(c: Context)
    ensures TxField(c, [0x00, 0x57, 0x00, 0x00, 0x00, 0x00]) == Some(Shape(c))
    ensures TxField(c, [0x00, 0x01, 0x00, 0x20, 0x03, 0x00]) == Some(Prevouts(c))
    ensures TxField(c, [0x00, 0x01, 0x00, 0x20, 0x04, 0x00]) == Some(Amounts(c))
    ensures TxField(c, [0x00, 0x01, 0x00, 0x20, 0x08, 0x00]) == Some(Spks(c))
    ensures TxField(c, [0x00, 0x01, 0x01, 0x00, 0x00, 0x00]) == Some(LE(c.index, 4))
    ensures TxField(c, [0x00, 0x00, 0x02, 0x00, 0x00, 0x00]) == Some(c.annex)
    ensures TxField(c, [0x00, 0x01, 0x00, 0x02, 0x00, 0x03]) == Some(Concat(EncodeOut, c.tx.outputs))
  {
    hide Shape, Prevouts, Amounts, Spks, LE, Concat;
  }

  // ---------- numbers ----------

  /** The four forms of a compact size: a byte, or a marker and the value in two, four or eight bytes. */
  lemma CompactSizeForms(n: nat)
    requires n < U64
    ensures var c := CompactSize(n);
            && c != []
            && (n < 0xfd <==> c == [n])
            && (c[0] == 0xfd <==> 0xfd <= n < 0x1_0000) && (c[0] == 0xfd ==> |c| == 3)
            && (c[0] == 0xfe <==> 0x1_0000 <= n < 0x1_0000_0000) && (c[0] == 0xfe ==> |c| == 5)
            && (c[0] == 0xff <==> 0x1_0000_0000 <= n) && (c[0] == 0xff ==> |c| == 9)
            && (|c| > 1 ==> Val(c[1..]) == n)
  {
    Pow256Values();
    assert Pow256(2) == 0x1_0000;
    hide LE, Val, Pow256;
    if 0xfd <= n < 0x1_0000 {
      LEVal(n, 2);
    } else if 0x1_0000 <= n < U32 {
      LEVal(n, 4);
    } else if U32 <= n {
      LEVal(n, 8);
    }
  }

  /** The number a script pushes is the only minimal one: no sign bit, no needless last byte. */
  lemma {:induction false} SignedNumForm(n: nat, x: bytes)
    ensures Val(SignedNum(n)) == n && MinimalSigned(SignedNum(n))
    ensures Val(x) == n && MinimalSigned(x) ==> x == SignedNum(n)
  {
    SignedNumVal(n);
    MinimalEnds(n);
    if Val(x) == n && MinimalSigned(x) && x != [] {
      var k := |x| - 1;
      if x[k] != 0 {
        OnlyMinimal(x);
      } else {
        assert x == x[..k] + Zeros(1);
        ValZeroes(x[..k], 1);
        assert x[..k] != [] && x[..k][k - 1] == x[k - 1];
        OnlyMinimal(x[..k]);
      }
    }
  }

  predicate MinimalSigned(x: bytes) {
    x == [] || (x[|x| - 1] < 0x80 && (x[|x| - 1] != 0 || (|x| > 1 && x[|x| - 2] >= 0x80)))
  }

  lemma {:induction false} MinimalEnds(n: nat)
    ensures Minimal(n) == [] || Minimal(n)[|Minimal(n)| - 1] != 0
  {
    if n != 0 {
      MinimalEnds(n / 256);
    }
  }

  lemma {:induction false} OnlyMinimal(x: bytes)
    requires x != [] && x[|x| - 1] != 0
    ensures Val(x) != 0 && Minimal(Val(x)) == x
  {
    if |x| > 1 {
      OnlyMinimal(x[1..]);
    } else {
      assert x[1..] == [];
    }
    assert Val(x) % 256 == x[0] && Val(x) / 256 == Val(x[1..]);
    assert x == [x[0]] + x[1..];
  }

  /** The bytes of a number in a script: one opcode up to sixteen, and otherwise a push of the minimal number. */
  lemma NumberBytes(n: nat)
    ensures var e := Encode(NumberInstr(n));
            && (n == 0 ==> e == [0x00]) && (1 <= n <= 16 ==> e == [0x50 + n])
            && (n > 16 ==> e == PushBytes(SignedNum(n)))
  {
  }

  /** No encoding of a push is shorter. */
  lemma ShortestPush(b: bytes, e: bytes)
    requires |b| < U32 && e != [] && ParseOne(e) == Some((Data(b), []))
    ensures |PushBytes(b)| <= |e|
  {
    hide LE, Val;
    var c := e[0];
    if c < 0x4c {
      assert |e| == 1 + |b|;
    } else {
      var w := if c == 0x4c then 1 else if c == 0x4d then 2 else 4;
      ValBound(e[1..1 + w]);
      Pow256Values();
      assert Pow256(2) == 0x1_0000;
    }
  }

  // ---------- transactions ----------

  lemma TxidTwice(sha: Hash, b: bytes)
    ensures Hash256(sha, b) == Sha(sha, Sha(sha, b))
  {
  }

  /** An input: raw txid, index, script and sequence. */
  lemma InputForm(i: TxIn)
    requires i.WellFormed()
    ensures var b, n := i.Encode(), |i.scriptSig|;
            && At(b, 0, i.prevout.txid) && At(b, 32, LE(i.prevout.vout, 4)) && At(b, 36, CompactSize(n))
            && At(b, 36 + |CompactSize(n)|, i.scriptSig) && At(b, 36 + |CompactSize(n)| + n, LE(i.sequence, 4))
            && |b| == 40 + |CompactSize(n)| + n
  {
    hide LE, CompactSize, At;
    var b, t, v, z := i.Encode(), i.prevout.txid, LE(i.prevout.vout, 4), CompactSize(|i.scriptSig|);
    assert b == t + v + z + i.scriptSig + LE(i.sequence, 4);
    SevenPieces(t, v, z, i.scriptSig, LE(i.sequence, 4), [], []);
    assert b == t + v + z + i.scriptSig + LE(i.sequence, 4) + [] + [];
  }

  /** An output: amount and script. */
  lemma OutputForm(o: TxOut)
    requires o.WellFormed()
    ensures var b, n := o.Encode(), |o.spk|;
            && At(b, 0, LE(o.amount, 8)) && At(b, 8, CompactSize(n)) && At(b, 8 + |CompactSize(n)|, o.spk)
            && |b| == 8 + |CompactSize(n)| + n
  {
    hide LE, CompactSize, At;
    var b, a, z := o.Encode(), LE(o.amount, 8), CompactSize(|o.spk|);
    SevenPieces(a, z, o.spk, [], [], [], []);
    assert b == a + z + o.spk + [] + [] + [] + [];
  }

  // ---------- taproot ----------

  /** What a leaf hash covers: the tag's digest twice, the leaf version, and the script with its length. */
  lemma LeafPreimageForm(sha: Hash, script: bytes)
    ensures var b, n := LeafPreimage(sha, script), |CompactSize(|script|)|;
            && At(b, 0, Sha(sha, Ascii("TapLeaf"))) && At(b, 32, Sha(sha, Ascii("TapLeaf")))
            && At(b, 64, [0xc2]) && At(b, 65, CompactSize(|script|)) && At(b, 65 + n, script)
            && |b| == 65 + n + |script|
  {
    TapTags();
    hide Sha, CompactSize, Ascii, At;
    var b, t, z := LeafPreimage(sha, script), Sha(sha, TAP_LEAF), CompactSize(|script|);
    assert b == t + t + [0xc2] + z + script;
    SevenPieces(t, t, [0xc2], z, script, [], []);
    assert b == t + t + [0xc2] + z + script + [] + [];
  }

  /** What the output key of a one-leaf tree covers: the tag's digest twice, the internal key and the leaf hash. */
  lemma TweakPreimageForm(sha: Hash, script: bytes)
    ensures var b := TweakPreimage(sha, script);
            && At(b, 0, Sha(sha, Ascii("TapTweak"))) && At(b, 32, Sha(sha, Ascii("TapTweak")))
            && At(b, 64, NUMS_INTERNAL_KEY) && At(b, 96, Sha(sha, LeafPreimage(sha, script))) && |b| == 128
    ensures NUMS_INTERNAL_KEY == [
               0x50, 0x92, 0x9b, 0x74, 0xc1, 0xa0, 0x49, 0x54, 0xb7, 0x8b, 0x4b, 0x60, 0x35, 0xe9, 0x7a, 0x5e,
               0x07, 0x8a, 0x5a, 0x0f, 0x28, 0xec, 0x96, 0xd5, 0x47, 0xbf, 0xee, 0x9a, 0xce, 0x80, 0x3a, 0xc0]
  {
    TapTags();
    hide Sha, LeafPreimage, Ascii, At;
    var b, t, h := TweakPreimage(sha, script), Sha(sha, TAP_TWEAK), Sha(sha, LeafPreimage(sha, script));
    assert |NUMS_INTERNAL_KEY| == 32 && b == t + t + NUMS_INTERNAL_KEY + h;
    SevenPieces(t, t, NUMS_INTERNAL_KEY, h, [], [], []);
    assert b == t + t + NUMS_INTERNAL_KEY + h + [] + [] + [];
  }

  /** The output script of a leaf: the key of whatever has these fields, tweaked by its hash, as a version-one witness
      program. */
  lemma TapSpkForm(w: World, script: bytes, b: bytes)
    requires |b| == 128 && At(b, 0, Sha(w.sha, Ascii("TapTweak"))) && At(b, 32, Sha(w.sha, Ascii("TapTweak")))
    requires At(b, 64, NUMS_INTERNAL_KEY) && At(b, 96, Sha(w.sha, LeafPreimage(w.sha, script)))
    ensures TapSpk(w, script) ==
            match w.tweak(Sha(w.sha, b), NUMS_INTERNAL_KEY) case None => None case Some(q) => Some([0x51, 0x20] + q)
  {
    hide Sha, LeafPreimage, Ascii;
    TweakPreimageForm(w.sha, script);
    var c := TweakPreimage(w.sha, script);
    assert b == b[0..32] + b[32..64] + b[64..96] + b[96..128];
    assert c == c[0..32] + c[32..64] + c[64..96] + c[96..128];
  }

  /** The bytes of a deposit leaf at offsets: the four committed items, each pushed and stashed, then the two paths. */
  lemma LeafForm(l: Leaf)
    requires l.Valid()
    ensures var b, n := LeafBytes(l), |BodyBytes()|;
            && |b| == 159 + n
            && At(b, 0, [0x04]) && At(b, 1, LE(l.recipient, 4)) && At(b, 5, [0x6b, 0x20]) && At(b, 7, l.key)
            && At(b, 39, [0x6b, 0x20]) && At(b, 41, l.bridgeId) && At(b, 73, [0x6b, 0x22]) && At(b, 75, l.spk)
            && At(b, 109, [0x6b, 0x63, 0x6c, 0x75, 0x6c, 0x75, 0x6c, 0x75, 0x6c, 0x75, 0x20]) && At(b, 120, l.refund)
            && At(b, 152, [0xac, 0x67, 0x6c, 0x6c, 0x6c, 0x6c]) && At(b, 158, BodyBytes()) && At(b, 158 + n, [0x68])
  {
    hide BodyBytes, LE, At;
    var b, e, f := LeafBytes(l), BeforeBridge(l.recipient, l.key), [0xac, 0x67, 0x6c, 0x6c, 0x6c, 0x6c];
    LeafLength(l);
    BeforeIs(l.recipient, l.key);
    assert e == [0x04] + LE(l.recipient, 4) + [0x6b, 0x20] + l.key + [0x6b, 0x20];
    SevenPieces(e, l.bridgeId, BEFORE_SPK, l.spk, BEFORE_REFUND, l.refund, AfterRefund());
    AtJoin(b, 0, [0x04] + LE(l.recipient, 4) + [0x6b, 0x20] + l.key, [0x6b, 0x20]);
    AtJoin(b, 0, [0x04] + LE(l.recipient, 4) + [0x6b, 0x20], l.key);
    AtJoin(b, 0, [0x04] + LE(l.recipient, 4), [0x6b, 0x20]);
    AtJoin(b, 0, [0x04], LE(l.recipient, 4));
    assert AfterRefund() == f + BodyBytes() + [0x68];
    AtJoin(b, 152, f + BodyBytes(), [0x68]);
    AtJoin(b, 152, f, BodyBytes());
  }

  // ---------- states and caboose ----------

  lemma GenesisStateForm(root: bytes)
    requires |root| == 32
    ensures var b := GenesisState(root);
            |b| == 41 && At(b, 0, Ascii("UTXOLIN")) && At(b, 7, [1]) && At(b, 8, [0]) && At(b, 9, root)
  {
    var b := GenesisState(root);
    assert b[0..7] == MAGIC == Ascii("UTXOLIN");
    assert b[7..8] == [1] && b[8..9] == [0] && b[9..41] == root;
  }

  lemma ActiveStateForm(id: bytes, root: bytes)
    requires |id| == 32 && |root| == 32
    ensures var b := ActiveState(id, root);
            && |b| == 73 && At(b, 0, Ascii("UTXOLIN")) && At(b, 7, [1]) && At(b, 8, [1]) && At(b, 9, id)
            && At(b, 41, root)
  {
    var b := ActiveState(id, root);
    assert b[0..7] == MAGIC == Ascii("UTXOLIN");
    assert b[7..8] == [1] && b[8..9] == [1] && b[9..41] == id && b[41..73] == root;
  }

  /** The caboose pays the hash of a script that returns at once and carries the state's hash and four zero bytes. */
  lemma CabooseForm(sha: Hash, state: bytes, script: bytes)
    requires |script| == 38 && At(script, 0, [0x6a, 0x24]) && At(script, 2, Sha(sha, state))
             && At(script, 34, [0, 0, 0, 0])
    ensures var b := CabooseSpk(sha, state); |b| == 34 && At(b, 0, [0x00, 0x20]) && At(b, 2, Sha(sha, script))
  {
    hide Sha;
    assert script == script[0..2] + script[2..34] + script[34..38];
    assert Zeros(4) == [0, 0, 0, 0];
    assert script == CabooseScript(sha, state);
    var b := CabooseSpk(sha, state);
    assert b[0..2] == [0x00, 0x20] && b[2..34] == Sha(sha, script);
  }

  // ---------- accounts and messages ----------

  predicate AccountAt(b: bytes, k: nat, a: Account) {
    && At(b, 22 + 48 * k, LE(k, 4)) && At(b, 26 + 48 * k, a.key) && At(b, 58 + 48 * k, LE(a.balance, 8))
    && At(b, 66 + 48 * k, LE(a.nonce, 4))
  }

  /** What an account root hashes: the domain, then number, key, balance and nonce of each account. */
  lemma RootPreimageForm(s: seq<Account>)
    requires State(s)
    ensures var b := RootPreimage(s);
            && |b| == 166 && At(b, 0, Ascii("coins-gsr-v1/accounts") + [0])
            && AccountAt(b, 0, s[0]) && AccountAt(b, 1, s[1]) && AccountAt(b, 2, s[2])
  {
    AccountDomain();
    hide LE, Ascii, At, AccountAt;
    var b, d := RootPreimage(s), ACCOUNT_ROOT_DOMAIN;
    var x, y, z := AccountBytes(0, s[0]), AccountBytes(1, s[1]), AccountBytes(2, s[2]);
    assert |d| == 22;
    WholeAt(b, b);
    AtJoin(b, 0, d + x + y, z);
    AtJoin(b, 0, d + x, y);
    AtJoin(b, 0, d, x);
    AccountForm(b, 0, s[0]);
    AccountForm(b, 1, s[1]);
    AccountForm(b, 2, s[2]);
  }

  lemma AccountForm(b: bytes, k: nat, x: Account)
    requires x.WellFormed()
    ensures |AccountBytes(k, x)| == 48 && (At(b, 22 + 48 * k, AccountBytes(k, x)) ==> AccountAt(b, k, x))
  {
    hide LE, At;
    var o, i, v, n := 22 + 48 * k, LE(k, 4), LE(x.balance, 8), LE(x.nonce, 4);
    AtJoin(b, o, i + x.key + v, n);
    AtJoin(b, o, i + x.key, v);
    AtJoin(b, o, i, x.key);
  }

  /** The withdrawal message: domain, identity, account one, nonce, amount, and the destination with its length. */
  lemma WithdrawalForm(id: bytes, nonce: nat, amount: nat, d: bytes)
    requires |id| == 32 && |d| == 34
    ensures var b := WithdrawalBytes(id, nonce, amount, d);
            && |b| == 115 && At(b, 0, Ascii("coins-gsr-v1/withdrawal/regtest") + [0]) && At(b, 32, id)
            && At(b, 64, [1, 0, 0, 0]) && At(b, 68, LE(nonce, 4)) && At(b, 72, LE(amount, 8)) && At(b, 80, [34])
            && At(b, 81, d)
  {
    WithdrawalDomain();
    AccountOne();
    hide LE, Ascii;
    var m, i, n, v := WITHDRAWAL_DOMAIN, LE(WITHDRAWAL_ACCOUNT, 4), LE(nonce, 4), LE(amount, 8);
    assert |m| == 32 && CompactSize(34) == [34];
    SevenPieces(m, id, i, n, v, [34], d);
  }

  lemma AccountOne()
    ensures LE(WITHDRAWAL_ACCOUNT, 4) == [1, 0, 0, 0]
  {
    LEZero(3);
    assert LE(1, 4) == [1] + LE(0, 3);
  }

  /** The scoped transfer message: domain, identity, hash of the native message. */
  lemma ScopedForm(c: Crypto, id: bytes, native: bytes)
    requires |id| == 32
    ensures var b := ScopedMessage(c, id, native);
            && |b| == 99 && At(b, 0, Ascii("coins-gsr-v1/transfer-auth/regtest") + [0]) && At(b, 35, id)
            && At(b, 67, Sha(c.sha, native))
  {
    TransferDomain();
    hide Sha, Ascii, At;
    var b, m, h := ScopedMessage(c, id, native), TRANSFER_AUTH_DOMAIN, Sha(c.sha, native);
    assert |m| == 35 && b == m + id + h;
    SevenPieces(m, id, h, [], [], [], []);
    assert b == m + id + h + [] + [] + [] + [];
  }

  // ---------- statements ----------

  predicate HeaderAt(b: bytes, action: byte, h: Header) {
    && At(b, 0, Ascii("coins-gsr-v1/statement/regtest") + [0]) && At(b, 31, [1]) && At(b, 32, [action])
    && At(b, 33, h.bridgeId) && At(b, 65, h.prevout.txid) && At(b, 97, LE(h.prevout.vout, 4))
    && At(b, 101, h.oldRoot) && At(b, 133, h.newRoot) && At(b, 165, LE(h.oldBacking, 8))
    && At(b, 173, LE(h.newBacking, 8))
  }

  predicate DepositAt(b: bytes, o: nat, r: Record) {
    && At(b, o, r.outpoint.txid) && At(b, o + 32, LE(r.outpoint.vout, 4)) && At(b, o + 36, LE(r.value, 8))
    && At(b, o + 44, LE(r.recipient, 4)) && At(b, o + 48, r.key)
  }

  /** Statements field by field: 341 bytes with action one and two records, or 320 bytes with action two, the three
      digests and the payout. */
  lemma StatementForm(s: Statement)
    requires s.WellFormed()
    ensures var b := s.Encode();
            && HeaderAt(b, if s.CollectTwo? then 1 else 2, s.h)
            && (s.CollectTwo? ==> |b| == 341 && DepositAt(b, 181, s.a) && DepositAt(b, 261, s.b))
            && (s.TransferWithdraw? ==>
                  && |b| == 320 && At(b, 181, s.native) && At(b, 213, s.scoped) && At(b, 245, s.withdrawal)
                  && At(b, 277, LE(s.payout.amount, 8)) && At(b, 285, [0x22]) && At(b, 286, s.payout.spk))
  {
    hide LE, At, Prefix, HeaderAt, DepositAt;
    var b := s.Encode();
    if s.CollectTwo? {
      CollectionAt(b, s);
      HeaderForm(b, 1, s.h);
      RecordForm(b, 181, s.a);
      RecordForm(b, 261, s.b);
    } else {
      SettlementAt(b, s);
      HeaderForm(b, 2, s.h);
    }
  }

  lemma HeaderForm(b: bytes, action: byte, h: Header)
    requires h.WellFormed() && At(b, 0, Prefix(action, h))
    ensures HeaderAt(b, action, h)
  {
    StatementDomain();
    hide LE, At, Ascii, Prefix;
    PrefixAt(b, action, h);
    assert |STATEMENT_DOMAIN| == 31;
    AtJoin(b, 0, STATEMENT_DOMAIN + [PROTOCOL_VERSION], [action]);
    AtJoin(b, 0, STATEMENT_DOMAIN, [PROTOCOL_VERSION]);
    AtJoin(b, 65, h.prevout.txid, LE(h.prevout.vout, 4));
  }

  lemma RecordForm(b: bytes, o: nat, r: Record)
    requires r.WellFormed() && At(b, o, r.Encode())
    ensures DepositAt(b, o, r)
  {
    hide LE, At;
    RecordAt(b, o, r);
    AtJoin(b, o, r.outpoint.txid, LE(r.outpoint.vout, 4));
  }
}
