// The spends that the three scripts of the bridge accept, field by field of the spending transaction.
module Acceptance {
  import opened Bytes
  import opened Transactions
  import opened Statements
  import opened Script
  import opened TxContext
  import opened Linearization
  import opened Deposit
  import opened DepositLeaf
  import opened BridgeHead
  import opened BridgeOutputs
  import opened BridgeDeposits
  import opened BridgeStatement
  import opened BridgeDigest
  import opened BridgePrograms
  import opened Completeness
  import opened Envelope
  import opened Heads

  /** Version 2, locktime 0, `ins` replaceable inputs without scripts, `outs` outputs, no annex, and input 0 spending
      an output 0. */
  predicate PlainForm(c: Context, ins: nat, outs: nat) {
    && c.tx.version == 2 && c.tx.locktime == 0 && |c.tx.inputs| == ins > 0 && |c.tx.outputs| == outs && c.annex == []
    && (forall i :: 0 <= i < ins ==> c.tx.inputs[i].scriptSig == [] && c.tx.inputs[i].sequence == 0xffff_fffd)
    && c.tx.inputs[0].prevout.vout == 0
  }

  /** Besides, all spent scripts have 34 bytes, the last is the sponsor's, and the script runs for input 0. */
  predicate BridgeForm(c: Context, ins: nat, outs: nat, sponsor: bytes) {
    && PlainForm(c, ins, outs) && |c.spent| == ins && (forall k :: 0 <= k < ins ==> |c.spent[k].spk| == 34)
    && c.spent[ins - 1].spk == sponsor && c.index == 0
  }

  lemma CovenantExact(c: Context, ins: byte, outs: byte, sponsor: bytes)
    requires WellFormed(c)
    ensures Covenant(c, ins, outs, sponsor) <==> BridgeForm(c, ins, outs, sponsor)
  {
    hide Spks;
    if BridgeForm(c, ins, outs, sponsor) {
      assert AllNative(c.spent);
      NativeSpkAt(c, 0);
    }
  }

  // ---------- collections ----------

  /** A spent output made from the leaf of recipient `r` in bridge `id`. */
  predicate MadeFrom(t: Terms, w: World, out: TxOut, spk: bytes, id: bytes, k: Ticket)
    requires |t.keys| == 3
  {
    && Val(k.recipient) < 3 && |k.refund| == 32
    && TapSpk(w, LeafBytes(Leaf(spk, id, Val(k.recipient), t.keys[Val(k.recipient)], k.refund))) == Some(out.spk)
  }

  /** Successor with the three amounts, sponsor change and caboose. */
  predicate CollectionForm(t: Terms, c: Context, newState: bytes) {
    && BridgeForm(c, 4, 3, t.sponsor) && c.spent[3].amount >= 10_330
    && c.tx.outputs == [
         TxOut((c.spent[0].amount + c.spent[1].amount + c.spent[2].amount) % U64, c.spent[0].spk),
         TxOut(c.spent[3].amount - 10_330, t.sponsor),
         TxOut(330, CabooseSpk(t.sha, newState))]
  }

  lemma KeptIs(n: nat)
    ensures Kept(n) == n % U64
  {
    Pow256Values();
    LEKeeps(n, 8);
  }

  /** A fixed width keeps a number modulo its range. */
  lemma {:induction false} LEKeeps(n: nat, w: nat)
    ensures Val(LE(n, w)) == n % Pow256(w)
  {
    hide Pow256;
    if w == 0 {
      assert Pow256(0) == 1 by { PowZero(); }
    } else {
      assert Pow256(w) == 256 * Pow256(w - 1) by { PowNext(w); }
      LEKeeps(n / 256, w - 1);
      assert LE(n, w)[1..] == LE(n / 256, w - 1);
      LowDigit(n, Pow256(w - 1));
    }
  }

  lemma PowZero()
    ensures Pow256(0) == 1
  {
  }

  lemma PowNext(w: nat)
    requires w > 0
    ensures Pow256(w) == 256 * Pow256(w - 1)
  {
  }

  lemma LowDigit(n: nat, p: nat)
    requires p > 0
    ensures n % (256 * p) == n % 256 + 256 * ((n / 256) % p)
  {
    var m := n / 256;
    var q, r := m / p, m % p;
    assert n == 256 * m + n % 256 && m == q * p + r;
    assert 256 * (q * p) == q * (256 * p) by { Regroup(q, p); }
    Remainder(n, q, 256 * p, 256 * r + n % 256);
  }

  lemma Regroup(q: nat, p: nat)
    ensures 256 * (q * p) == q * (256 * p)
  {
  }

  lemma CollectionFormExact(t: Terms, w: World, x: Claim)
    requires WellFormed(w.ctx) && w.sha == t.sha
    ensures CollectionOpened(t, w, x) <==> |x.bridgeId| == 32 && CollectionForm(t, w.ctx, x.newState)
  {
    hide Covenant, BridgeForm, CabooseSpk, WellFormed;
    CovenantExact(w.ctx, 4, 3, t.sponsor);
    if BridgeForm(w.ctx, 4, 3, t.sponsor) {
      SpentCount(w.ctx, 4, 3, t.sponsor);
      KeptIs(Sum3(w.ctx));
    }
  }

  lemma SpentCount(c: Context, ins: nat, outs: nat, sponsor: bytes)
    requires BridgeForm(c, ins, outs, sponsor)
    ensures |c.spent| == |c.tx.inputs| == ins && |c.tx.outputs| == outs && |c.spent[0].spk| == 34
  {
  }

  /** The root an accepted head was in: the pinned one for the genesis. */
  function RootBefore(t: Terms, x: Claim): bytes {
    if |x.parent| == 137 then t.genesisRoot else if |x.oldState| == 73 then x.oldState[41..73] else []
  }

  function RootAfter(x: Claim): bytes { if |x.newState| == 73 then x.newState[41..73] else [] }

  lemma RootsExact(t: Terms, c: Context, x: Claim)
    requires t.Valid() && ParentAccepted(t, c, x)
    ensures RootIn(x) == RootBefore(t, x) && NewRoot(x) == RootAfter(x)
  {
    hide Pays, LinksTo, AncestorPays, Prevouts, SpkOf, AmountOf, Hash256;
  }

  /** The deposit of one input, for the recipient a number names. */
  function RecordAtInput(t: Terms, c: Context, i: nat, r: bytes): Record
    requires |t.keys| == 3 && Val(r) < 3 && i < |c.tx.inputs| && i < |c.spent|
  {
    Record(c.tx.inputs[i].prevout, c.spent[i].amount, Val(r), t.keys[Val(r)])
  }

  /** The statement a collection must carry. */
  function CollectionDemanded(t: Terms, c: Context, x: Claim, a: bytes, b: bytes): Statement
    requires |t.keys| == 3 && Val(a) < 3 && Val(b) < 3 && |c.spent| == |c.tx.inputs| == 4
  {
    CollectTwo(Header(x.bridgeId, c.tx.inputs[0].prevout, RootBefore(t, x), RootAfter(x), c.spent[0].amount,
                      (c.spent[0].amount + c.spent[1].amount + c.spent[2].amount) % U64),
               RecordAtInput(t, c, 1, a), RecordAtInput(t, c, 2, b))
  }

  lemma DemandExact(t: Terms, c: Context, x: Claim, a: bytes, b: bytes)
    requires t.Valid() && ParentAccepted(t, c, x) && Val(a) < 3 && Val(b) < 3 && |c.spent| == |c.tx.inputs| == 4
    ensures CollectionStatement(t, c, x, a, b) == CollectionDemanded(t, c, x, a, b)
  {
    hide ParentAccepted, Val, RootIn, NewRoot, RootBefore, RootAfter;
    RootsExact(t, c, x);
    KeptIs(Sum3(c));
  }

  /** The public input: at most 32 bytes, little-endian the digest's value modulo 2^253. */
  predicate NamesDigest(sha: Hash, item: bytes, values: bytes) {
    |item| <= 32 && Val(item) == ValBE(Sha(sha, values)) % (32 * Pow256(31))
  }

  lemma DigestExact(sha: Hash, item: bytes, values: bytes)
    ensures InputIs(item, MaskedDigest(sha, values)) <==> NamesDigest(sha, item, values)
  {
    hide MaskedDigest, Sha, Val, ValBE, Pow256;
    MaskIsModulus(sha, values);
  }

  lemma DepositedExact(t: Terms, w: World, i: nat, id: bytes, k: Ticket)
    requires |t.keys| == 3 && 0 < i < |w.ctx.spent|
    ensures Deposited(t, w, i, id, k) <==> MadeFrom(t, w, w.ctx.spent[i], w.ctx.spent[0].spk, id, k)
  {
    hide TapSpk, LeafBytes, Val;
  }

  /** A collection is accepted exactly when its transaction has the form, both deposits were made for this bridge, the
      head is as claimed, the statement is the demanded one, and the public input names its digest. */
  lemma CollectionExactly(t: Terms, w: World, x: Claim, a: Ticket, b: Ticket, item: bytes)
    requires t.Valid() && WellFormed(w.ctx) && w.sha == t.sha
    ensures CollectionAccepted(t, w, x, a, b, item) <==>
            && |x.bridgeId| == 32 && CollectionForm(t, w.ctx, x.newState) && |w.ctx.spent| == |w.ctx.tx.inputs| == 4
            && MadeFrom(t, w, w.ctx.spent[1], w.ctx.spent[0].spk, x.bridgeId, a)
            && MadeFrom(t, w, w.ctx.spent[2], w.ctx.spent[0].spk, x.bridgeId, b)
            && ParentAccepted(t, w.ctx, x)
            && x.values == CollectionDemanded(t, w.ctx, x, a.recipient, b.recipient).Encode()
            && NamesDigest(t.sha, item, x.values)
  {
    hide CollectionOpened, CollectionForm, MadeFrom, Deposited, ParentAccepted, CollectionStatement, CollectionDemanded;
    hide InputIs, MaskedDigest, NamesDigest, WellFormed, Statement.Encode, Val;
    CollectionFormExact(t, w, x);
    if CollectionForm(t, w.ctx, x.newState) {
      FormCount(t, w.ctx, x.newState);
      DepositedExact(t, w, 1, x.bridgeId, a);
      DepositedExact(t, w, 2, x.bridgeId, b);
      MadeRecipient(t, w, w.ctx.spent[1], w.ctx.spent[0].spk, x.bridgeId, a);
      MadeRecipient(t, w, w.ctx.spent[2], w.ctx.spent[0].spk, x.bridgeId, b);
      if ParentAccepted(t, w.ctx, x) && Val(a.recipient) < 3 && Val(b.recipient) < 3 {
        DemandExact(t, w.ctx, x, a.recipient, b.recipient);
      }
    }
    DigestExact(t.sha, item, x.values);
  }

  lemma FormCount(t: Terms, c: Context, newState: bytes)
    requires CollectionForm(t, c, newState)
    ensures |c.spent| == |c.tx.inputs| == 4
  {
  }

  lemma MadeRecipient(t: Terms, w: World, out: TxOut, spk: bytes, id: bytes, k: Ticket)
    requires |t.keys| == 3
    ensures MadeFrom(t, w, out, spk, id, k) ==> Val(k.recipient) < 3
  {
    hide TapSpk, LeafBytes, Val;
  }

  // ---------- settlements ----------

  /** Successor without the payout, payout, sponsor change and caboose. */
  predicate SettlementForm(t: Terms, c: Context, payout: TxOut, newState: bytes) {
    && BridgeForm(c, 2, 4, t.sponsor) && payout.amount <= c.spent[0].amount && c.spent[1].amount >= 10_330
    && c.tx.outputs == [
         TxOut(c.spent[0].amount - payout.amount, c.spent[0].spk), payout, TxOut(c.spent[1].amount - 10_330, t.sponsor),
         TxOut(330, CabooseSpk(t.sha, newState))]
  }

  /** The bytes of a settlement statement give back its payout and its three digests. */
  lemma ReadsBack(u: Statement)
    requires u.WellFormed() && u.TransferWithdraw?
    ensures var v := u.Encode();
            && |v| == 320 && Payout(v) == u.payout && v[181..213] == u.native && v[213..245] == u.scoped
            && v[245..277] == u.withdrawal
  {
    hide Prefix, LE, Val, At;
    var v := u.Encode();
    SettlementAt(v, u);
    CutAt(v, 181, u.native);
    CutAt(v, 213, u.scoped);
    CutAt(v, 245, u.withdrawal);
    CutAt(v, 277, LE(u.payout.amount, 8));
    CutAt(v, 286, u.payout.spk);
    Pow256Values();
    LEVal(u.payout.amount, 8);
  }

  lemma SettlementFormExact(t: Terms, w: World, x: Claim, u: Statement)
    requires WellFormed(w.ctx) && w.sha == t.sha && u.WellFormed() && u.TransferWithdraw? && x.values == u.Encode()
    ensures SettlementOpened(t, w, x) <==> |x.bridgeId| == 32 && SettlementForm(t, w.ctx, u.payout, x.newState)
  {
    hide Covenant, BridgeForm, CabooseSpk, WellFormed, Payout, Statement.Encode, Statement.WellFormed;
    ReadsBack(u);
    CovenantExact(w.ctx, 2, 4, t.sponsor);
    if BridgeForm(w.ctx, 2, 4, t.sponsor) {
      SpentCount(w.ctx, 2, 4, t.sponsor);
    }
  }

  /** A settlement that carries statement `u` is accepted exactly when its transaction has the form for that payout, the
      head is as claimed, the header is this transaction's, and the public input names the digest. */
  lemma SettlementExactly(t: Terms, w: World, x: Claim, u: Statement, item: bytes)
    requires t.Valid() && WellFormed(w.ctx) && w.sha == t.sha
    requires u.WellFormed() && u.TransferWithdraw? && x.values == u.Encode()
    ensures SettlementAccepted(t, w, x, item) <==>
            && |x.bridgeId| == 32 && SettlementForm(t, w.ctx, u.payout, x.newState)
            && |w.ctx.spent| == |w.ctx.tx.inputs| == 2 && ParentAccepted(t, w.ctx, x)
            && u.payout.amount <= w.ctx.spent[0].amount
            && u.h == Header(x.bridgeId, w.ctx.tx.inputs[0].prevout, RootBefore(t, x), RootAfter(x),
                             w.ctx.spent[0].amount, w.ctx.spent[0].amount - u.payout.amount)
            && NamesDigest(t.sha, item, x.values)
  {
    hide SettlementOpened, SettlementForm, ParentAccepted, InputIs, MaskedDigest, NamesDigest, WellFormed, Payout;
    hide Statement.Encode, Statement.WellFormed;
    SettlementFormExact(t, w, x, u);
    ReadsBack(u);
    if SettlementForm(t, w.ctx, u.payout, x.newState) {
      SettlementCount(t, w.ctx, u.payout, x.newState);
      if ParentAccepted(t, w.ctx, x) && |x.bridgeId| == 32 {
        RootsExact(t, w.ctx, x);
        AcceptedRoots(t, w.ctx, x);
        HeadFields(w.ctx);
        SameStatement(w.ctx, x, u);
      }
    }
    DigestExact(t.sha, item, x.values);
  }

  lemma SettlementCount(t: Terms, c: Context, payout: TxOut, newState: bytes)
    requires SettlementForm(t, c, payout, newState)
    ensures |c.spent| == |c.tx.inputs| == 2 && payout.amount <= c.spent[0].amount
  {
  }

  lemma SameStatement(c: Context, x: Claim, u: Statement)
    requires u.WellFormed() && u.TransferWithdraw? && x.values == u.Encode() && |x.values| == 320
    requires |c.spent| == |c.tx.inputs| == 2 && u.payout.amount <= c.spent[0].amount < U64 && |x.bridgeId| == 32
    requires c.tx.inputs[0].prevout.WellFormed() && |RootIn(x)| == 32 && |NewRoot(x)| == 32
    ensures x.values == SettlementStatement(c, x).Encode() <==>
            u.h == Header(x.bridgeId, c.tx.inputs[0].prevout, RootIn(x), NewRoot(x), c.spent[0].amount,
                          c.spent[0].amount - u.payout.amount)
  {
    hide RootIn, NewRoot, Payout, Statement.Encode;
    ReadsBack(u);
    var s := SettlementStatement(c, x);
    var h := HeaderFor(c, x, c.spent[0].amount - u.payout.amount);
    assert s == TransferWithdraw(h, u.native, u.scoped, u.withdrawal, u.payout);
    if x.values == s.Encode() {
      StatementInjective(u, s);
    }
  }

  lemma HeadFields(c: Context)
    requires WellFormed(c) && |c.tx.inputs| > 0
    ensures |c.spent| > 0 && c.spent[0].amount < U64 && c.tx.inputs[0].prevout.WellFormed()
  {
  }

  // ---------- deposits ----------

  /** The collection path of a deposit accepts exactly a transaction of the collection form, run for input 1 or 2, whose
      input 0 spends the shown head of the deposit's program: the genesis transaction that names its bridge, or a
      collection or settlement that commits to an active state of it. */
  lemma CollectibleExactly(w: World, p: Tx, oldState: bytes, spk: bytes, id: bytes)
    requires WellFormed(w.ctx) && p.WellFormed()
    ensures Collectible(w, p.Encode(), oldState, spk, id) <==>
            && |spk| == 34 && |id| == 32 && PlainForm(w.ctx, 4, 3) && |w.ctx.spent| == 4 && |Spks(w.ctx)| == 140
            && w.ctx.spent[0].spk == spk && (w.ctx.index == 1 || w.ctx.index == 2)
            && w.ctx.tx.inputs[0].prevout.txid == Hash256(w.sha, p.Encode())
            && var v := w.ctx.spent[0].amount;
               || (PaysHead(w.sha, p, 1, 2, v, spk, oldState) && |oldState| == 41 && At(oldState, 0, GENESIS_MARK)
                   && Hash256(w.sha, p.Encode()) == id)
               || ((PaysHead(w.sha, p, 4, 3, v, spk, oldState) || PaysHead(w.sha, p, 2, 4, v, spk, oldState))
                   && |oldState| == 73 && At(oldState, 0, ACTIVE_MARK) && At(oldState, 9, id))
  {
    hide Spks, PaysHead, At, Hash256, Tx.Encode, JoinsHead, LE;
    if |spk| == 34 && |id| == 32 && |w.ctx.spent| == 4 {
      JoinsExact(w.sha, p, Head(p.Encode(), oldState, id, spk, LE(w.ctx.spent[0].amount, 8)), w.ctx.spent[0].amount);
    }
    assert PlainContext(w.ctx, 4, 3) <==> PlainForm(w.ctx, 4, 3) && |Spks(w.ctx)| == 140 by { PlainForms(w.ctx); }
  }

  lemma PlainForms(c: Context)
    requires WellFormed(c)
    ensures PlainContext(c, 4, 3) <==> PlainForm(c, 4, 3) && |Spks(c)| == 140
  {
    hide Spks;
  }
}
