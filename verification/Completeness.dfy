// The programs can be satisfied: for every reachable head, the transaction, witness and statement the host assembles
// pass the whole prefix.
module Completeness {
  import opened Bytes
  import opened Transactions
  import opened Statements
  import opened Script
  import opened Building
  import opened Calls
  import opened TxContext
  import opened Linearization
  import opened Deposit
  import opened DepositLeaf
  import opened BridgeHead
  import opened BridgeOutputs
  import opened BridgeDeposits
  import opened BridgeStatement
  import opened BridgeDigest
  import opened BridgePrograms
  import opened BridgeRuns
  import opened Accounts
  import opened Transitions
  import opened Ledger
  import opened Attested
  import opened Lineage
  import opened Solvency
  import opened Flows

  // ---------- heads ----------

  /** A recognised transaction with the program in output 0. */
  predicate PaysProgram(a: Tx, spk: bytes) {
    (a.Plain(4, 3) || a.Plain(2, 4) || a.Plain(1, 2)) && a.outputs[0].spk == spk
  }

  /** The transaction that names a bridge, funded by the sponsor. */
  predicate GenesisTx(t: Terms, spk: bytes, p: Tx, a: Tx, id: bytes, state: bytes) {
    && p.Plain(1, 2) && a.Plain(1, 2) && p.outputs[0].spk == spk && a.outputs[0].spk == t.sponsor
    && state == GenesisState(t.genesisRoot) && p.outputs[1] == TxOut(CABOOSE_VALUE, CabooseSpk(t.sha, state))
    && p.inputs[0].prevout == OutPoint(Hash256(t.sha, a.Encode()), 0) && id == Hash256(t.sha, p.Encode())
  }

  /** A collection or settlement of bridge `id` that ended in `state`. */
  predicate StepTx(t: Terms, spk: bytes, p: Tx, a: Tx, id: bytes, state: bytes) {
    && ((p.Plain(4, 3) && p.outputs[1].spk == t.sponsor) || (p.Plain(2, 4) && p.outputs[2].spk == t.sponsor))
    && p.outputs[0].spk == spk && p.outputs[|p.outputs| - 1] == TxOut(CABOOSE_VALUE, CabooseSpk(t.sha, state))
    && |state| == 73 && |id| == 32 && state == ActiveState(id, state[41..73])
    && p.inputs[0].prevout == OutPoint(Hash256(t.sha, a.Encode()), 0) && PaysProgram(a, spk)
  }

  lemma GenesisLength(r: bytes)
    requires |r| == 32
    ensures |GenesisState(r)| == 41 && At(GenesisState(r), 0, GENESIS_MARK) && At(GenesisState(r), 9, r)
    ensures GenesisState(r)[9..41] == r
  {
  }

  lemma ActiveReads(id: bytes, r: bytes)
    requires |id| == 32 && |r| == 32
    ensures var b := ActiveState(id, r);
            |b| == 73 && At(b, 0, ACTIVE_MARK) && At(b, 9, id) && b[41..73] == r
  {
    var b := ActiveState(id, r);
    assert b[9..41] == id && b[41..73] == r && b[0..9] == ACTIVE_MARK;
  }

  lemma LinkHolds(sha: Hash, p: Tx, ins: byte, outs: byte, a: Tx)
    requires 0 < ins < 0xfd && outs < 0xfd && p.Plain(ins, outs)
             && p.inputs[0].prevout == OutPoint(Hash256(sha, a.Encode()), 0)
    ensures LinksTo(sha, p.Encode(), a.Encode())
  {
    hide Hash256;
    PlainFields(p, ins, outs);
    var b, o := p.Encode(), p.inputs[0].prevout;
    assert At(b, InputOffset(0), o.Encode());
    AtJoin(b, 5, o.txid, LE(o.vout, 4));
    LEZero(4);
  }

  /** A head's serialization passes the checks of its output and caboose. */
  lemma PaysHolds(sha: Hash, p: Tx, ins: byte, outs: byte, hd: Head)
    requires ins < 0xfd && 0 < outs < 0xfd && p.Plain(ins, outs) && hd.parent == p.Encode()
    requires hd.spk == p.outputs[0].spk && hd.amount == LE(p.outputs[0].amount, 8)
    requires p.outputs[outs - 1] == TxOut(CABOOSE_VALUE, CabooseSpk(sha, hd.oldState))
    ensures Pays(sha, hd, ins, outs)
  {
    hide CabooseSpk, PlainShape, LE;
    PlainHasShape(p, ins, outs);
    PlainFields(p, ins, outs);
    var b := p.Encode();
    assert At(b, OutputOffset(ins, 0), LE(p.outputs[0].amount, 8)) && At(b, OutputOffset(ins, 0) + 9, p.outputs[0].spk);
    assert At(b, OutputOffset(ins, outs - 1), LE(p.outputs[outs - 1].amount, 8));
    assert At(b, OutputOffset(ins, outs - 1) + 9, p.outputs[outs - 1].spk);
  }

  lemma OutputHolds(p: Tx, ins: byte, outs: byte, j: nat)
    requires ins < 0xfd && j < outs < 0xfd && p.Plain(ins, outs)
    ensures PlainShape(p.Encode(), ins, outs) && At(p.Encode(), OutputOffset(ins, j) + 9, p.outputs[j].spk)
    ensures |p.Encode()| == PlainSize(ins, outs)
  {
    hide LE;
    PlainHasShape(p, ins, outs);
    PlainFields(p, ins, outs);
    PlainLengths(p, ins, outs);
  }

  lemma AncestorHolds(a: Tx, spk: bytes)
    requires PaysProgram(a, spk)
    ensures AncestorPays(a.Encode(), spk)
  {
    hide PlainShape, At;
    if a.Plain(4, 3) {
      OutputHolds(a, 4, 3, 0);
    } else if a.Plain(2, 4) {
      OutputHolds(a, 2, 4, 0);
    } else {
      OutputHolds(a, 1, 2, 0);
    }
  }

  /** The claim a host makes about head `p` with ancestor `a`. */
  predicate ClaimsHead(t: Terms, c: Context, x: Claim, p: Tx, a: Tx) {
    && WellFormedFirst(c) && c.tx.inputs[0].prevout == OutPoint(Hash256(t.sha, p.Encode()), 0)
    && p.outputs != [] && c.spent[0] == p.outputs[0]
    && x.parent == p.Encode() && x.ancestor == a.Encode()
    && |x.bridgeId| == 32 && |NewRoot(x)| == 32 && x.newState == ActiveState(x.bridgeId, NewRoot(x))
  }

  predicate WellFormedFirst(c: Context) { |c.tx.inputs| > 0 && |c.spent| > 0 }

  lemma ParentPrevout(t: Terms, c: Context, p: Tx)
    requires WellFormed(c) && |c.spent| > 0 && c.tx.inputs[0].prevout == OutPoint(Hash256(t.sha, p.Encode()), 0)
    ensures At(Prevouts(c), 0, Hash256(t.sha, p.Encode()))
  {
    hide Hash256;
    FirstPrevout(c);
  }

  lemma NewStateHolds(x: Claim)
    requires |x.bridgeId| == 32 && |NewRoot(x)| == 32 && x.newState == ActiveState(x.bridgeId, NewRoot(x))
    ensures NewStateActive(x)
  {
    ActiveReads(x.bridgeId, NewRoot(x));
  }

  lemma GenesisAccepted(t: Terms, c: Context, x: Claim, p: Tx, a: Tx)
    requires WellFormed(c) && t.Valid() && ClaimsHead(t, c, x, p, a)
             && GenesisTx(t, SpkOf(c), p, a, x.bridgeId, x.oldState)
    ensures ParentAccepted(t, c, x)
  {
    hide Hash256, CabooseSpk, LE, Prevouts, PlainShape, LinksTo, GenesisState, ActiveState, NewStateActive, NewRoot;
    hide Pays;
    ParentPrevout(t, c, p);
    NewStateHolds(x);
    PaysHolds(t.sha, p, 1, 2, HeadIn(c, x));
    LinkHolds(t.sha, p, 1, 2, a);
    OutputHolds(a, 1, 2, 0);
    OutputHolds(p, 1, 2, 0);
    GenesisLength(t.genesisRoot);
  }

  lemma StepAccepted(t: Terms, c: Context, x: Claim, p: Tx, a: Tx)
    requires WellFormed(c) && t.Valid() && ClaimsHead(t, c, x, p, a)
             && StepTx(t, SpkOf(c), p, a, x.bridgeId, x.oldState)
    ensures ParentAccepted(t, c, x)
  {
    hide Hash256, CabooseSpk, LE, Prevouts, PlainShape, LinksTo, AncestorPays, PaysProgram, NewStateActive, NewRoot;
    hide ActiveState;
    ParentPrevout(t, c, p);
    NewStateHolds(x);
    AncestorHolds(a, SpkOf(c));
    ActiveReads(x.bridgeId, x.oldState[41..73]);
    if p.Plain(4, 3) {
      PaysHolds(t.sha, p, 4, 3, HeadIn(c, x));
      LinkHolds(t.sha, p, 4, 3, a);
      OutputHolds(p, 4, 3, 1);
    } else {
      PaysHolds(t.sha, p, 2, 4, HeadIn(c, x));
      LinkHolds(t.sha, p, 2, 4, a);
      OutputHolds(p, 2, 4, 2);
    }
  }

  // ---------- what the host assembles ----------

  datatype Coin = Coin(at: OutPoint, out: TxOut)

  function Spending(c: Coin): TxIn { TxIn(c.at, [], 0xffff_fffd) }

  predicate GoodCoin(c: Coin) { c.at.WellFormed() && c.out.amount < U64 && |c.out.spk| == 34 }

  function SponsorChange(t: Terms, sponsor: Coin): TxOut { TxOut(Excess(sponsor.out.amount, SPONSORED), t.sponsor) }

  function CollectTx(t: Terms, head: Coin, a: Coin, b: Coin, sponsor: Coin, newState: bytes): Tx {
    Tx(2, [Spending(head), Spending(a), Spending(b), Spending(sponsor)],
       [TxOut(head.out.amount + a.out.amount + b.out.amount, head.out.spk), SponsorChange(t, sponsor),
        TxOut(CABOOSE_VALUE, CabooseSpk(t.sha, newState))], 0)
  }

  function SettleTx(t: Terms, head: Coin, payout: TxOut, sponsor: Coin, newState: bytes): Tx {
    Tx(2, [Spending(head), Spending(sponsor)],
       [TxOut(Excess(head.out.amount, payout.amount), head.out.spk), payout, SponsorChange(t, sponsor),
        TxOut(CABOOSE_VALUE, CabooseSpk(t.sha, newState))], 0)
  }

  /** The coin of head `p` of bridge `id` in state `state`. */
  predicate HeadCoin(t: Terms, head: Coin, p: Tx, a: Tx, id: bytes, state: bytes) {
    && p.outputs != [] && head == Coin(OutPoint(Hash256(t.sha, p.Encode()), 0), p.outputs[0]) && GoodCoin(head)
    && |id| == 32
    && (GenesisTx(t, head.out.spk, p, a, id, state) || StepTx(t, head.out.spk, p, a, id, state))
  }

  predicate SponsorCoin(t: Terms, sponsor: Coin) {
    GoodCoin(sponsor) && sponsor.out.spk == t.sponsor && sponsor.out.amount >= SPONSORED
  }

  lemma FourCovenant(t: Terms, c: Context, xs: seq<Coin>)
    requires |xs| == 4 && GoodCoin(xs[0]) && GoodCoin(xs[1]) && GoodCoin(xs[2]) && SponsorCoin(t, xs[3])
             && xs[0].at.vout == 0
    requires c.tx.version == 2 && c.tx.locktime == 0 && c.index == 0 && c.annex == [] && |c.tx.outputs| == 3
    requires c.tx.inputs == [Spending(xs[0]), Spending(xs[1]), Spending(xs[2]), Spending(xs[3])]
    requires c.spent == [xs[0].out, xs[1].out, xs[2].out, xs[3].out]
    ensures Covenant(c, 4, 3, t.sponsor)
  {
    forall k | 0 <= k < 4 ensures |c.spent[k].spk| == 34 && c.tx.inputs[k].Plain() {
      assert k == 0 || k == 1 || k == 2 || k == 3;
    }
    assert AllNative(c.spent);
    NativeSpkAt(c, 0);
  }

  lemma TwoCovenant(t: Terms, c: Context, xs: seq<Coin>)
    requires |xs| == 2 && GoodCoin(xs[0]) && SponsorCoin(t, xs[1]) && xs[0].at.vout == 0
    requires c.tx.version == 2 && c.tx.locktime == 0 && c.index == 0 && c.annex == [] && |c.tx.outputs| == 4
    requires c.tx.inputs == [Spending(xs[0]), Spending(xs[1])] && c.spent == [xs[0].out, xs[1].out]
    ensures Covenant(c, 2, 4, t.sponsor)
  {
    forall k | 0 <= k < 2 ensures |c.spent[k].spk| == 34 && c.tx.inputs[k].Plain() {
      assert k == 0 || k == 1;
    }
    assert AllNative(c.spent);
    NativeSpkAt(c, 0);
  }

  lemma HeadCoinAccepted(t: Terms, c: Context, x: Claim, head: Coin, p: Tx, a: Tx)
    requires WellFormed(c) && t.Valid() && HeadCoin(t, head, p, a, x.bridgeId, x.oldState)
    requires |c.tx.inputs| > 0 && |c.spent| > 0 && c.tx.inputs[0] == Spending(head) && c.spent[0] == head.out
    requires x.parent == p.Encode() && x.ancestor == a.Encode()
    requires |NewRoot(x)| == 32 && x.newState == ActiveState(x.bridgeId, NewRoot(x))
    ensures ParentAccepted(t, c, x)
  {
    hide Hash256, ParentAccepted, GenesisTx, StepTx, NewRoot, ActiveState;
    if GenesisTx(t, head.out.spk, p, a, x.bridgeId, x.oldState) {
      GenesisAccepted(t, c, x, p, a);
    } else {
      StepAccepted(t, c, x, p, a);
    }
  }

  /** A deposit coin and the ticket that opens it. */
  predicate DepositCoin(t: Terms, w: World, coin: Coin, spk: bytes, id: bytes, k: Ticket)
    requires |t.keys| == 3
  {
    && GoodCoin(coin) && Val(k.recipient) < 3 && |k.refund| == 32
    && TapSpk(w, LeafBytes(Leaf(spk, id, Val(k.recipient), t.keys[Val(k.recipient)], k.refund))) == Some(coin.out.spk)
  }

  /** The statement is left out of this claim. */
  function HostClaim(p: Tx, a: Tx, id: bytes, state: bytes, newRoot: bytes): Claim {
    Claim(p.Encode(), a.Encode(), state, ActiveState(id, newRoot), id, [])
  }

  lemma HostRoots(p: Tx, a: Tx, id: bytes, state: bytes, newRoot: bytes)
    requires |id| == 32 && |newRoot| == 32
    ensures NewRoot(HostClaim(p, a, id, state, newRoot)) == newRoot
  {
    ActiveReads(id, newRoot);
  }

  /** For every head, any two deposits into its bridge and a sponsor coin worth the fee and the caboose: the assembled
      collection, with the statement it determines and a matching public input, satisfies the whole program. */
  lemma CollectionCompletes(t: Terms, w: World, head: Coin, da: Coin, db: Coin, sponsor: Coin, p: Tx, anc: Tx,
                            state: bytes, newRoot: bytes, id: bytes, a: Ticket, b: Ticket, item: bytes)
    requires t.Valid() && w.sha == t.sha && HeadCoin(t, head, p, anc, id, state) && SponsorCoin(t, sponsor)
             && |newRoot| == 32
    requires DepositCoin(t, w, da, head.out.spk, id, a) && DepositCoin(t, w, db, head.out.spk, id, b)
    requires head.out.amount + da.out.amount + db.out.amount < U64
    requires w.ctx == Context(CollectTx(t, head, da, db, sponsor, ActiveState(id, newRoot)),
                              [head.out, da.out, db.out, sponsor.out], 0, [])
    ensures var x := HostClaim(p, anc, id, state, newRoot);
            var values := CollectionStatement(t, w.ctx, x, a.recipient, b.recipient).Encode();
            InputIs(item, MaskedDigest(w.sha, values)) ==> CollectionAccepted(t, w, x.(values := values), a, b, item)
  {
    hide CabooseSpk, Hash256, LeafBytes, TapSpk, ActiveState, GenesisTx, StepTx, InputIs, MaskedDigest, ParentAccepted;
    hide Val, Covenant;
    hide RootIn, NewRoot, Kept;
    var c, x := w.ctx, HostClaim(p, anc, id, state, newRoot);
    CabooseLength(t.sha, ActiveState(id, newRoot));
    FourCovenant(t, c, [head, da, db, sponsor]);
    CollectWellFormed(t, head, da, db, sponsor, ActiveState(id, newRoot));
    assert WellFormed(c);
    HostRoots(p, anc, id, state, newRoot);
    HeadCoinAccepted(t, c, x, head, p, anc);
    var values := CollectionStatement(t, c, x, a.recipient, b.recipient).Encode();
    ValuesApart(t, c, x, values, a.recipient, b.recipient);
    KeptSmall(Sum3(c));
  }

  lemma CollectWellFormed(t: Terms, head: Coin, a: Coin, b: Coin, sponsor: Coin, state: bytes)
    requires GoodCoin(head) && GoodCoin(a) && GoodCoin(b) && GoodCoin(sponsor) && |t.sponsor| == 34
    requires head.out.amount + a.out.amount + b.out.amount < U64
    ensures CollectTx(t, head, a, b, sponsor, state).WellFormed()
  {
    CabooseLength(t.sha, state);
    hide CabooseSpk;
  }

  /** The head checks and the demanded statement do not read the statement bytes. */
  lemma ValuesApart(t: Terms, c: Context, x: Claim, values: bytes, a: bytes, b: bytes)
    requires |t.keys| == 3
    ensures ParentAccepted(t, c, x) <==> ParentAccepted(t, c, x.(values := values))
    ensures CollectionStatement(t, c, x, a, b) == CollectionStatement(t, c, x.(values := values), a, b)
  {
    hide CabooseSpk, Hash256, PlainShape, AncestorPays, Val, Kept, SpkOf, AmountOf, Prevouts;
  }

  /** The settlement a host assembles for a statement of this head that names a payout within it. */
  lemma SettlementCompletes(t: Terms, w: World, head: Coin, sponsor: Coin, p: Tx, anc: Tx, state: bytes, newRoot: bytes,
                            id: bytes, payout: TxOut, native: bytes, scoped: bytes, withdrawal: bytes, item: bytes)
    requires t.Valid() && w.sha == t.sha && HeadCoin(t, head, p, anc, id, state) && SponsorCoin(t, sponsor)
             && |newRoot| == 32
    requires payout.Plain() && payout.amount <= head.out.amount && |native| == 32 && |scoped| == 32
             && |withdrawal| == 32
    requires w.ctx
             == Context(SettleTx(t, head, payout, sponsor, ActiveState(id, newRoot)), [head.out, sponsor.out], 0, [])
    ensures var x := HostClaim(p, anc, id, state, newRoot);
            var u := TransferWithdraw(HeaderFor(w.ctx, x, head.out.amount - payout.amount), native, scoped,
                                      withdrawal, payout);
            InputIs(item, MaskedDigest(w.sha, u.Encode())) ==> SettlementAccepted(t, w, x.(values := u.Encode()), item)
  {
    hide CabooseSpk, Hash256, ActiveState, GenesisTx, StepTx, InputIs, MaskedDigest, ParentAccepted, Covenant, RootIn;
    hide NewRoot, Prefix;
    var c, x := w.ctx, HostClaim(p, anc, id, state, newRoot);
    CabooseLength(t.sha, ActiveState(id, newRoot));
    TwoCovenant(t, c, [head, sponsor]);
    SettleWellFormed(t, head, payout, sponsor, ActiveState(id, newRoot));
    assert WellFormed(c);
    HostRoots(p, anc, id, state, newRoot);
    HeadCoinAccepted(t, c, x, head, p, anc);
    AcceptedRoots(t, c, x);
    var u := TransferWithdraw(HeaderFor(c, x, head.out.amount - payout.amount), native, scoped, withdrawal, payout);
    ValuesApart(t, c, x, u.Encode(), [], []);
    assert u.WellFormed();
    DemandedIsGiven(c, x, u);
  }

  lemma SettleWellFormed(t: Terms, head: Coin, payout: TxOut, sponsor: Coin, state: bytes)
    requires GoodCoin(head) && GoodCoin(sponsor) && payout.Plain() && |t.sponsor| == 34
    ensures SettleTx(t, head, payout, sponsor, state).WellFormed()
  {
    CabooseLength(t.sha, state);
    hide CabooseSpk;
  }

  /** Reading a settlement statement back gives its payout and digests. */
  lemma DemandedIsGiven(c: Context, x: Claim, u: Statement)
    requires u.WellFormed() && u.TransferWithdraw? && u.h == HeaderFor(c, x, u.h.newBacking)
    requires u.payout.amount <= Value(c, 0) && u.h.newBacking == Value(c, 0) - u.payout.amount
    ensures var y := x.(values := u.Encode());
            && |y.values| == 320 && Payout(y.values) == u.payout
            && SettlementStatement(c, y) == u
  {
    hide Prefix, LE, Val, At;
    var v := u.Encode();
    SettlementAt(v, u);
    CutAt(v, 181, u.native);
    CutAt(v, 213, u.scoped);
    CutAt(v, 245, u.withdrawal);
    CutAt(v, 277, LE(u.payout.amount, 8));
    CutAt(v, 286, u.payout.spk);
    Pow256Values();
    LEVal(u.payout.amount, 8);
    RootsApart(x, v);
  }

  lemma CutAt(b: bytes, o: nat, x: bytes)
    requires At(b, o, x)
    ensures o + |x| <= |b| && b[o..o + |x|] == x
  {
  }

  lemma RootsApart(x: Claim, v: bytes)
    ensures RootIn(x.(values := v)) == RootIn(x) && NewRoot(x.(values := v)) == NewRoot(x)
  {
  }

  lemma GenesisJoins(t: Terms, hd: Head, p: Tx, a: Tx)
    requires t.Valid() && GenesisTx(t, hd.spk, p, a, hd.bridgeId, hd.oldState) && hd.parent == p.Encode()
    requires hd.amount == LE(p.outputs[0].amount, 8)
    ensures JoinsHead(t.sha, hd)
  {
    hide Hash256, CabooseSpk, LE, PlainShape, Pays, GenesisState;
    PaysHolds(t.sha, p, 1, 2, hd);
    OutputHolds(p, 1, 2, 0);
    GenesisLength(t.genesisRoot);
  }

  lemma StepJoins(t: Terms, hd: Head, p: Tx, a: Tx)
    requires t.Valid() && StepTx(t, hd.spk, p, a, hd.bridgeId, hd.oldState) && hd.parent == p.Encode()
    requires hd.amount == LE(p.outputs[0].amount, 8)
    ensures JoinsHead(t.sha, hd)
  {
    hide Hash256, CabooseSpk, LE, PlainShape, Pays, ActiveState, PaysProgram;
    ActiveReads(hd.bridgeId, hd.oldState[41..73]);
    if p.Plain(4, 3) {
      PaysHolds(t.sha, p, 4, 3, hd);
      OutputHolds(p, 4, 3, 1);
    } else {
      PaysHolds(t.sha, p, 2, 4, hd);
      OutputHolds(p, 2, 4, 2);
    }
  }

  /** In the same assembled collection, both deposits open by their collection path. */
  lemma DepositCompletes(t: Terms, w: World, head: Coin, da: Coin, db: Coin, sponsor: Coin, p: Tx, anc: Tx,
                         state: bytes, newState: bytes, l: Leaf)
    requires t.Valid() && w.sha == t.sha && HeadCoin(t, head, p, anc, l.bridgeId, state) && SponsorCoin(t, sponsor)
    requires GoodCoin(da) && GoodCoin(db) && head.out.amount + da.out.amount + db.out.amount < U64
    requires l.Valid() && l.spk == head.out.spk && BodyCompiled() && LeafSize() < U32 && 1 <= w.ctx.index < 3
    requires w.ctx
             == Context(CollectTx(t, head, da, db, sponsor, newState), [head.out, da.out, db.out, sponsor.out],
                        w.ctx.index, [])
    ensures Accepted(RunBytes(LeafBytes(l), Fresh([p.Encode(), state, []]), w))
  {
    hide CabooseSpk, Hash256, LeafBytes, GenesisTx, StepTx, BodyCompiled, LeafSize, RunBytes, JoinsHead, PlainContext;
    hide LE;
    var c := w.ctx;
    CabooseLength(t.sha, newState);
    CollectWellFormed(t, head, da, db, sponsor, newState);
    assert WellFormed(c);
    FourCovenant(t, c.(index := 0), [head, da, db, sponsor]);
    IndexApart(c);
    var hd := Head(p.Encode(), state, l.bridgeId, l.spk, LE(head.out.amount, 8));
    if GenesisTx(t, head.out.spk, p, anc, l.bridgeId, state) {
      GenesisJoins(t, hd, p, anc);
    } else {
      StepJoins(t, hd, p, anc);
    }
    assert !IsTrue([]) by { BoolTrue(false); }
    CollectPathMeans(l, [p.Encode(), state, []], w);
  }

  /** The form of a transaction does not depend on which input asks. */
  lemma IndexApart(c: Context)
    ensures PlainContext(c.(index := 0), 4, 3) <==> PlainContext(c, 4, 3)
  {
  }

  /** The statement the program demands of the assembled collection is the one the account relation emits for it, so a
      proof of the collection carries the right public input. */
  lemma CollectionProvable(t: Terms, c: Context, crypto: Crypto, i: Collection, x: Claim, a: Ticket, b: Ticket,
                           xs: seq<Coin>)
    requires i.WellFormed() && CollectionSpec(crypto, i).Ok? && |t.keys| == 3 && |xs| == 4
    requires c.tx.inputs == [Spending(xs[0]), Spending(xs[1]), Spending(xs[2]), Spending(xs[3])]
    requires c.spent == [xs[0].out, xs[1].out, xs[2].out, xs[3].out]
    requires i.bridgeId == x.bridgeId && i.prevout == xs[0].at && i.oldBacking == xs[0].out.amount
    requires RootOf(crypto.sha, i.oldState) == RootIn(x)
             && RootOf(crypto.sha, CollectionSpec(crypto, i).value.newState) == NewRoot(x)
    requires forall k :: 0 <= k < 3 ==> i.oldState[k].key == t.keys[k]
    requires i.deposits[0] == DepositInput(xs[1].at, xs[1].out.amount, Val(a.recipient))
    requires i.deposits[1] == DepositInput(xs[2].at, xs[2].out.amount, Val(b.recipient))
    ensures CollectionSpec(crypto, i).value.statement == CollectionStatement(t, c, x, a.recipient, b.recipient).Encode()
  {
    hide RootOf, RootIn, NewRoot, Val, Kept, CollectionSpec, GoodKeys, LexLess;
    CollectionExact(crypto, i);
    CollectionGuarantees(crypto, i);
    KeptSmall(Sum3(c));
    var s := CollectionSpec(crypto, i).value.newState;
    var u, v := CollectionStatementOf(crypto, i, s), CollectionStatement(t, c, x, a.recipient, b.recipient);
    assert u.h == v.h && u.a == v.a && u.b == v.b;
  }

  /** The same for a settlement: the digests in the demanded statement are those of the three signed messages. */
  lemma SettlementProvable(c: Context, crypto: Crypto, i: Settlement, x: Claim)
    requires i.WellFormed() && SettlementSpec(crypto, i).Ok? && |c.tx.inputs| > 0 && |c.spent| > 0
    requires i.bridgeId == x.bridgeId && i.prevout == c.tx.inputs[0].prevout && i.oldBacking == c.spent[0].amount
    requires RootOf(crypto.sha, i.oldState) == RootIn(x)
    requires RootOf(crypto.sha, SettlementSpec(crypto, i).value.newState) == NewRoot(x)
    ensures i.withdrawalAmount <= c.spent[0].amount
    ensures SettlementSpec(crypto, i).value.statement ==
            TransferWithdraw(HeaderFor(c, x, c.spent[0].amount - i.withdrawalAmount),
                             Sha(crypto.sha, NativeOf(crypto, i)),
                             Sha(crypto.sha, ScopedMessage(crypto, i.bridgeId, NativeOf(crypto, i))),
                             Sha(crypto.sha, WithdrawalOf(i)), TxOut(i.withdrawalAmount, i.destination)).Encode()
  {
    hide RootOf, RootIn, NewRoot, SettlementSpec, ScopedMessage, WithdrawalOf, Sha;
    SettlementGuarantees(crypto, i);
  }

  // ---------- on the witness stack ----------

  function CollectionStack(base: seq<bytes>, x: Claim, a: Ticket, b: Ticket): seq<bytes> {
    base
      + [x.parent, x.ancestor, x.oldState, x.newState, x.bridgeId, a.recipient, a.refund, b.recipient, b.refund,
         x.values]
  }

  function SettlementStack(base: seq<bytes>, x: Claim): seq<bytes> {
    base + [x.parent, x.ancestor, x.oldState, x.newState, x.bridgeId, x.values]
  }

  lemma StackClaims(base: seq<bytes>, x: Claim, a: Ticket, b: Ticket)
    ensures CollectionClaim(CollectionStack(base, x, a, b)) == x && SettlementClaim(SettlementStack(base, x)) == x
  {
  }

  /** A claim laid on a proof's base stack in the order of the names reaches the verifier with that base. */
  lemma CollectionStackCompletes(t: Terms, verifier: bytes, w: World, base: seq<bytes>, x: Claim, a: Ticket, b: Ticket)
    requires Deployed(t) && WellFormed(w.ctx) && w.sha == t.sha && |base| >= 2
             && CollectionAccepted(t, w, x, a, b, base[1])
    ensures RunBytes(CollectionPrefix(t) + verifier, Fresh(CollectionStack(base, x, a, b)), w)
            == RunBytes(verifier, Fresh(base), w)
  {
    hide CollectionAccepted, RunBytes, CollectionPrefix, CompiledTo, BodyCompiled, LeafSize;
    var st := CollectionStack(base, x, a, b);
    assert st[..|st| - 10] == base;
    CollectionRuns(t, verifier, st, w);
  }

  lemma SettlementStackCompletes(t: Terms, verifier: bytes, w: World, base: seq<bytes>, x: Claim)
    requires Deployed(t) && WellFormed(w.ctx) && w.sha == t.sha && |base| >= 2 && SettlementAccepted(t, w, x, base[1])
    ensures RunBytes(SettlementPrefix(t) + verifier, Fresh(SettlementStack(base, x)), w)
            == RunBytes(verifier, Fresh(base), w)
  {
    hide SettlementAccepted, RunBytes, SettlementPrefix, CompiledTo, BodyCompiled, LeafSize;
    var st := SettlementStack(base, x);
    assert st[..|st| - 6] == base;
    SettlementRuns(t, verifier, st, w);
  }

  // ---------- every reachable head ----------

  lemma ParentPays(s: System, h: History, g: bytes, k: nat, d: nat)
    requires Confirmed(s, h) && CollisionFree(s, h) && d > 0 && HeadAfter(s, h, g, k, d)
    ensures Formed(h[k]) && ParentOf(h, k) < k && PaysProgram(h[ParentOf(h, k)].tx, s.spk)
    ensures h[k].tx.inputs[0].prevout == OutPoint(TxidAt(s, h, ParentOf(h, k)), 0)
  {
    hide Confirmed, CollisionFree, ClaimOf, Hash256, CabooseSpk, ActiveState, GenesisState, RootIn, AncestorPays;
    var f := ParentOf(h, k);
    assert Resolves(s, h, k, 0);
    assert SpentOutput(s, h, k, 0) == h[f].tx.outputs[0];
    if d == 1 {
      FirstStep(s, h, k);
    } else {
      LaterReads(s, h, k);
    }
  }

  lemma SponsorKept(s: System, h: History, k: nat)
    requires Confirmed(s, h) && CollisionFree(s, h) && IsStep(s, h, k)
    ensures var p := h[k].tx;
            || (p.Plain(4, 3) && p.outputs[1].spk == s.t.sponsor)
            || (p.Plain(2, 4) && p.outputs[2].spk == s.t.sponsor)
  {
    hide Confirmed, CollisionFree, ClaimOf, CabooseSpk, CollectionSums, SpentOutput, SpentOutputs, RootIn, NewRoot;
    hide RootOf;
    hide ActiveState, StatementOf, Proved, CollectionRan, SettlementRan;
    StepParts(s, h, k);
    AttestedKind(s, h, k);
    if h[k].spends[0].ByCollection? {
      CollectionSponsor(s, h, k);
    } else {
      SettlementConserves(s, h, k);
    }
  }

  /** The step's own part of being a head to continue from. */
  lemma StepIsHead(s: System, h: History, k: nat)
    requires Confirmed(s, h) && CollisionFree(s, h) && IsStep(s, h, k)
    ensures var p, state := h[k].tx, ClaimOf(h[k]).newState;
            && ((p.Plain(4, 3) && p.outputs[1].spk == s.t.sponsor)
                || (p.Plain(2, 4) && p.outputs[2].spk == s.t.sponsor))
            && p.outputs[0].spk == s.spk && |s.spk| == 34
            && p.outputs[|p.outputs| - 1] == TxOut(CABOOSE_VALUE, CabooseSpk(s.t.sha, state))
            && |state| == 73 && |IdentityOf(h, k)| == 32 && state == ActiveState(IdentityOf(h, k), state[41..73])
  {
    hide Confirmed, CollisionFree, ClaimOf, CabooseSpk, RootOf, StatementOf, StatementAgrees, SpentOutput, NewRoot;
    hide RootIn, Proved;
    StepParts(s, h, k);
    SponsorKept(s, h, k);
    ActiveReads(IdentityOf(h, k), NewRoot(ClaimOf(h[k])));
    SpkIs(s, h);
  }

  /** Every head a confirmed history reaches is one the completeness theorems apply to. */
  lemma ReachableHead(s: System, h: History, g: bytes, k: nat, d: nat)
    requires Confirmed(s, h) && CollisionFree(s, h) && d > 0 && HeadAfter(s, h, g, k, d)
    ensures Formed(h[k]) && h[k].tx.outputs != []
    ensures HeadCoin(s.t, Coin(OutPoint(TxidAt(s, h, k), 0), h[k].tx.outputs[0]), h[k].tx, h[ParentOf(h, k)].tx, g,
                     ClaimOf(h[k]).newState)
  {
    hide Confirmed, CollisionFree, ClaimOf, CabooseSpk, Hash256, SpendsProgram, PaysProgram, GenesisTx, ActiveState;
    ParentPays(s, h, g, k, d);
    StepIsHead(s, h, k);
    FirstOutputPlain(h[k].tx);
  }

  lemma SpkIs(s: System, h: History)
    requires Confirmed(s, h)
    ensures |s.spk| == 34
  {
  }

  lemma FirstOutputPlain(p: Tx)
    requires p.Plain(4, 3) || p.Plain(2, 4)
    ensures p.outputs[0].amount < U64 && |p.outputs[0].spk| == 34
  {
  }
}
