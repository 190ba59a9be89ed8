// Lineage: every confirmed spend of the program continues an unbroken chain of spends back to the transaction whose
// txid is the claimed identity, although anyone may create outputs paying the program.
module Lineage {
  import opened Bytes
  import opened Transactions
  import opened Statements
  import opened Script
  import opened TxContext
  import opened Linearization
  import opened Deposit
  import opened BridgeHead
  import opened BridgeOutputs
  import opened BridgeStatement
  import opened BridgePrograms
  import opened Accounts
  import opened Transitions
  import opened Ledger
  import opened Attested

  /** Entry `k` is an accepted transition of some bridge. */
  predicate IsStep(s: System, h: History, k: nat) { SpendsProgram(s, h, k, 0) }

  function ParentOf(h: History, k: nat): nat
    requires k < |h| && Formed(h[k])
  {
    h[k].source[0]
  }

  /** The identity a step claims, and whether it claims to follow the genesis. */
  function IdentityOf(h: History, k: nat): bytes
    requires k < |h|
  {
    ClaimOf(h[k]).bridgeId
  }

  predicate FollowsGenesis(h: History, k: nat)
    requires k < |h|
  {
    |ClaimOf(h[k]).parent| == 137
  }

  function TxidAt(s: System, h: History, k: nat): bytes
    requires k < |h|
  {
    Hash256(s.t.sha, h[k].tx.Encode())
  }

  // ---------- reading serialized transactions ----------

  lemma PlainDecode(tx: Tx, ins: byte, outs: byte)
    requires tx.WellFormed() && ins < 0xfd && outs < 0xfd && PlainShape(tx.Encode(), ins, outs)
    ensures tx.Plain(ins, outs) && FieldsRead(tx, ins, outs)
  {
    hide PlainShape, FieldsRead;
    ShapeIsSerialization(tx.Encode(), ins, outs);
    PlainFields(tx, ins, outs);
  }

  /** A link to an ancestor is the first prevout. */
  lemma LinkReads(sha: Hash, tx: Tx, ins: byte, outs: byte, ancestor: bytes)
    requires tx.Plain(ins, outs) && ins > 0 && FieldsRead(tx, ins, outs) && LinksTo(sha, tx.Encode(), ancestor)
    ensures tx.inputs[0].prevout == OutPoint(Hash256(sha, ancestor), 0)
  {
    hide Hash256, LE;
    var b, o := tx.Encode(), tx.inputs[0].prevout;
    assert At(b, InputOffset(0), o.Encode()) && tx.inputs[0].Plain();
    AtJoin(b, 5, o.txid, LE(o.vout, 4));
    AtSame(b, 5, o.txid, Hash256(sha, ancestor));
    AtSame(b, 37, LE(o.vout, 4), Zeros(4));
    Pow256Values();
    LEZero(4);
    LEInjective(o.vout, 0, 4);
  }

  lemma OutputReads(tx: Tx, ins: byte, outs: byte, j: nat, spk: bytes)
    requires tx.Plain(ins, outs) && FieldsRead(tx, ins, outs) && j < outs && |spk| == 34
    requires At(tx.Encode(), OutputOffset(ins, j) + 9, spk)
    ensures tx.outputs[j].spk == spk
  {
    var b := tx.Encode();
    assert At(b, OutputOffset(ins, j) + 9, tx.outputs[j].spk);
    AtSame(b, OutputOffset(ins, j) + 9, tx.outputs[j].spk, spk);
  }

  // ---------- the parent ----------

  lemma ClaimHashed(s: System, h: History, k: nat)
    requires |s.t.keys| == 3 && k < |h|
    ensures var x, sha := ClaimOf(h[k]), s.t.sha;
            && TxStrings(sha, x.parent) <= Hashed(s, h) && TxStrings(sha, x.ancestor) <= Hashed(s, h)
            && StateStrings(sha, x.oldState) <= Hashed(s, h) && StateStrings(sha, x.newState) <= Hashed(s, h)
            && TxStrings(sha, h[k].tx.Encode()) <= Hashed(s, h)
  {
    hide Hashed, ClaimOf, TxStrings, StateStrings, LeafStrings, RevealedStrings, RootStrings, EntryStatements;
    hide StatementStrings;
    HashedAt(s, h, k);
  }

  /** The claimed predecessor is the entry whose output 0 is spent. */
  lemma ParentIs(s: System, h: History, k: nat)
    requires Confirmed(s, h) && CollisionFree(s, h) && IsStep(s, h, k)
    ensures s.t.Valid() && Stepped(s, h, k)
    ensures ParentOf(h, k) < k && ClaimOf(h[k]).parent == h[ParentOf(h, k)].tx.Encode()
            && h[k].tx.inputs[0].prevout.vout == 0
  {
    hide Confirmed, CollisionFree, KnownParent, NewStateActive, Hashed, ClaimOf, CabooseIs, HeaderAgrees, Proved;
    hide TxStrings;
    hide SpentOutput, SpentOutputs, Prevouts, WellFormed, Hash256;
    ProgramSpendStepped(s, h, k, 0);
    var c, x, f := ContextAt(s, h, k, 0), ClaimOf(h[k]), ParentOf(h, k);
    ContextFormed(s, h, k, 0);
    assert Resolves(s, h, k, 0);
    FirstPrevout(c);
    ContextTx(c);
    AtSame(Prevouts(c), 0, Hash256(s.t.sha, x.parent), c.tx.inputs[0].prevout.txid);
    ClaimHashed(s, h, k);
    ClaimHashed(s, h, f);
    TxidSame(s, h, x.parent, h[f].tx.Encode());
  }

  lemma ContextTx(c: Context)
    requires WellFormed(c)
    ensures c.tx.WellFormed() && |c.tx.inputs| > 0 && |c.tx.inputs[0].prevout.txid| == 32
  {
  }

  lemma PaysRead(sha: Hash, hd: Head, ins: byte, outs: byte)
    requires Pays(sha, hd, ins, outs)
    ensures outs > 0 && PlainShape(hd.parent, ins, outs)
    ensures At(hd.parent, OutputOffset(ins, outs - 1) + 9, CabooseSpk(sha, hd.oldState))
  {
    hide PlainShape, At, CabooseSpk;
  }

  /** What the checks of the predecessor's bytes say of the predecessor. */
  lemma HeadReads(sha: Hash, p: Tx, hd: Head, ancestor: bytes, ins: byte, outs: byte)
    requires p.WellFormed() && hd.parent == p.Encode() && 0 < ins < 0xfd && outs < 0xfd
    requires Pays(sha, hd, ins, outs) && LinksTo(sha, hd.parent, ancestor)
    ensures p.Plain(ins, outs) && p.outputs[outs - 1].spk == CabooseSpk(sha, hd.oldState)
    ensures p.inputs[0].prevout == OutPoint(Hash256(sha, ancestor), 0)
  {
    hide PlainShape, FieldsRead, CabooseSpk, Pays, LinksTo, At, LE, Hash256, Tx.Encode;
    CabooseLength(sha, hd.oldState);
    PaysRead(sha, hd, ins, outs);
    PlainDecode(p, ins, outs);
    OutputReads(p, ins, outs, outs - 1, CabooseSpk(sha, hd.oldState));
    LinkReads(sha, p, ins, outs, ancestor);
  }

  predicate GenesisLink(s: System, h: History, k: nat)
    requires k < |h| && Formed(h[k])
  {
    var x, f := ClaimOf(h[k]), ParentOf(h, k);
    && f < k && TxidAt(s, h, f) == x.bridgeId && h[f].tx.Plain(1, 2) && !h[f].coinbase
    && h[f].tx.outputs[1].spk == CabooseSpk(s.t.sha, x.oldState) && x.oldState == GenesisState(s.t.genesisRoot)
    && RootIn(x) == s.t.genesisRoot
  }

  lemma GenesisFacts(t: Terms, c: Context, x: Claim)
    requires ParentAccepted(t, c, x) && |x.parent| == 137 && |t.genesisRoot| == 32
    ensures Pays(t.sha, HeadIn(c, x), 1, 2) && LinksTo(t.sha, x.parent, x.ancestor)
    ensures x.oldState == GenesisState(t.genesisRoot) && RootIn(x) == t.genesisRoot
            && Hash256(t.sha, x.parent) == x.bridgeId
  {
    hide Pays, LinksTo, PlainShape, SpkOf, AmountOf, Prevouts, Hash256;
    assert x.oldState == x.oldState[0..9] + x.oldState[9..41];
  }

  /** The first step of a bridge spends output 0 of the transaction that names it. */
  lemma FirstStep(s: System, h: History, k: nat)
    requires Confirmed(s, h) && CollisionFree(s, h) && IsStep(s, h, k) && FollowsGenesis(h, k)
    ensures GenesisLink(s, h, k) && h[k].tx.inputs[0].prevout.vout == 0
  {
    hide Confirmed, CollisionFree, ParentAccepted, ClaimOf, CabooseIs, HeaderAgrees, Proved, Pays, LinksTo;
    hide SpentOutput, SpentOutputs, Hash256, CabooseSpk, SpkOf, AmountOf;
    ParentIs(s, h, k);
    var c, x, f := ContextAt(s, h, k, 0), ClaimOf(h[k]), ParentOf(h, k);
    GenesisFacts(s.t, c, x);
    assert Formed(h[f]);
    HeadReads(s.t.sha, h[f].tx, HeadIn(c, x), x.ancestor, 1, 2);
  }

  lemma ContinuedFacts(t: Terms, c: Context, x: Claim)
    requires ParentAccepted(t, c, x) && |x.parent| != 137 && |x.bridgeId| == 32
    ensures (|x.parent| == 303 && Pays(t.sha, HeadIn(c, x), 4, 3))
            || (|x.parent| == 264 && Pays(t.sha, HeadIn(c, x), 2, 4))
    ensures LinksTo(t.sha, x.parent, x.ancestor) && AncestorPays(x.ancestor, SpkOf(c))
    ensures x.oldState == ActiveState(x.bridgeId, RootIn(x)) && x.newState == ActiveState(x.bridgeId, NewRoot(x))
  {
    hide Pays, LinksTo, AncestorPays, SpkOf, AmountOf, Prevouts;
    if Pays(t.sha, HeadIn(c, x), 2, 4) {
      PaysLength(t.sha, HeadIn(c, x), 2, 4);
    }
    ActiveParts(x.oldState, x.bridgeId);
    ActiveParts(x.newState, x.bridgeId);
  }

  lemma ActiveParts(b: bytes, id: bytes)
    requires |b| == 73 && At(b, 0, ACTIVE_MARK) && At(b, 9, id) && |id| == 32
    ensures b == ActiveState(id, b[41..73])
  {
    assert b == b[0..9] + b[9..41] + b[41..73];
  }

  lemma ActiveSame(id: bytes, r: bytes, id': bytes, r': bytes)
    requires |id| == 32 && |id'| == 32 && ActiveState(id, r) == ActiveState(id', r')
    ensures id == id' && r == r'
  {
    Peel(ACTIVE_MARK + id, r, ACTIVE_MARK + id', r');
    Peel(ACTIVE_MARK, id, ACTIVE_MARK, id');
  }

  /** An ancestor recognised by its shape pays the program in output 0. */
  lemma AncestorReads(a: Tx, spk: bytes)
    requires a.WellFormed() && AncestorPays(a.Encode(), spk) && |spk| == 34
    ensures |a.outputs| > 0 && a.outputs[0].spk == spk
  {
    hide PlainShape, FieldsRead, At;
    var b := a.Encode();
    if |b| == 303 {
      PlainDecode(a, 4, 3);
      OutputReads(a, 4, 3, 0, spk);
    } else if |b| == 264 {
      PlainDecode(a, 2, 4);
      OutputReads(a, 2, 4, 0, spk);
    } else {
      PlainDecode(a, 1, 2);
      OutputReads(a, 1, 2, 0, spk);
    }
  }

  /** A later step continues a step of the same bridge, from the state that step committed to. */
  predicate ContinuedLink(s: System, h: History, k: nat)
    requires k < |h| && Formed(h[k])
  {
    var x, f := ClaimOf(h[k]), ParentOf(h, k);
    && f < k && IsStep(s, h, f) && IdentityOf(h, f) == x.bridgeId && ClaimOf(h[f]).newState == x.oldState
    && RootIn(x) == NewRoot(ClaimOf(h[f]))
  }

  /** What a later step reads of its predecessor. */
  predicate ContinuedReads(s: System, h: History, k: nat)
    requires k < |h| && Formed(h[k])
  {
    var x, f := ClaimOf(h[k]), ParentOf(h, k);
    && f < k && Formed(h[f]) && (h[f].tx.Plain(4, 3) || h[f].tx.Plain(2, 4))
    && h[f].tx.outputs[|h[f].tx.outputs| - 1].spk == CabooseSpk(s.t.sha, x.oldState)
    && h[f].tx.inputs[0].prevout == OutPoint(Hash256(s.t.sha, x.ancestor), 0) && AncestorPays(x.ancestor, s.spk)
    && |x.bridgeId| == 32 && x.oldState == ActiveState(x.bridgeId, RootIn(x))
  }

  lemma LaterReads(s: System, h: History, k: nat)
    requires Confirmed(s, h) && CollisionFree(s, h) && IsStep(s, h, k) && !FollowsGenesis(h, k)
    ensures ContinuedReads(s, h, k) && h[k].tx.inputs[0].prevout.vout == 0
  {
    hide Confirmed, CollisionFree, ParentAccepted, ClaimOf, CabooseIs, HeaderAgrees, Proved, Pays, LinksTo;
    hide AncestorPays;
    hide SpentOutput, SpentOutputs, Hash256, CabooseSpk, AmountOf, RootIn, NewRoot, ActiveState;
    ParentIs(s, h, k);
    var c, x, f := ContextAt(s, h, k, 0), ClaimOf(h[k]), ParentOf(h, k);
    ContinuedFacts(s.t, c, x);
    assert Formed(h[f]);
    if |x.parent| == 303 {
      HeadReads(s.t.sha, h[f].tx, HeadIn(c, x), x.ancestor, 4, 3);
    } else {
      HeadReads(s.t.sha, h[f].tx, HeadIn(c, x), x.ancestor, 2, 4);
    }
  }

  /** The predecessor itself spent the program. */
  lemma ParentIsStep(s: System, h: History, k: nat)
    requires Confirmed(s, h) && CollisionFree(s, h) && k < |h| && Formed(h[k]) && ContinuedReads(s, h, k)
    ensures IsStep(s, h, ParentOf(h, k))
  {
    hide Confirmed, CollisionFree, ClaimOf, AncestorPays, Hash256, CabooseSpk, RootIn, ActiveState, Hashed, TxStrings;
    hide SpentOutputs;
    var x, f := ClaimOf(h[k]), ParentOf(h, k);
    assert !h[f].coinbase;
    assert s.t.Valid() && |s.spk| == 34 by { ConfirmedValid(s, h); }
    ConfirmedOrdinary(s, h, f);
    assert Resolves(s, h, f, 0);
    var g := ParentOf(h, f);
    ClaimHashed(s, h, k);
    ClaimHashed(s, h, g);
    TxidSame(s, h, x.ancestor, h[g].tx.Encode());
    assert Formed(h[g]);
    AncestorReads(h[g].tx, s.spk);
  }

  lemma LaterStep(s: System, h: History, k: nat)
    requires Confirmed(s, h) && CollisionFree(s, h) && IsStep(s, h, k) && !FollowsGenesis(h, k)
    ensures ContinuedLink(s, h, k) && h[k].tx.inputs[0].prevout.vout == 0
  {
    hide Confirmed, CollisionFree, ParentAccepted, ClaimOf, HeaderAgrees, Proved, AncestorPays, Hash256, CabooseSpk;
    hide Hashed;
    hide SpentOutput, SpentOutputs, RootIn, NewRoot, ActiveState, StateStrings, SpkOf;
    LaterReads(s, h, k);
    ParentIsStep(s, h, k);
    var x, f := ClaimOf(h[k]), ParentOf(h, k);
    ParentIs(s, h, f);
    var y := ClaimOf(h[f]);
    ClaimHashed(s, h, k);
    ClaimHashed(s, h, f);
    CabooseSame(s, h, x.oldState, y.newState);
    SteppedNewState(s, h, f);
    ActiveSame(x.bridgeId, RootIn(x), y.bridgeId, NewRoot(y));
  }

  lemma SteppedNewState(s: System, h: History, k: nat)
    requires s.t.Valid() && Ordinary(s, h, k) && Stepped(s, h, k)
    ensures var x := ClaimOf(h[k]); |x.bridgeId| == 32 && x.newState == ActiveState(x.bridgeId, NewRoot(x))
  {
    hide KnownParent, ClaimOf, CabooseIs, HeaderAgrees, Proved, SpentOutput, SpentOutputs, Prevouts, SpkOf;
    var x := ClaimOf(h[k]);
    assert NewStateActive(x);
    ActiveParts(x.newState, x.bridgeId);
  }

  // ---------- chains ----------

  /** Entry `k` is the head of bridge `g` after `d` steps: the transaction named `g` when there were none, and
      otherwise a step of `g` spending output 0 of the head before it. */
  predicate HeadAfter(s: System, h: History, g: bytes, k: nat, d: nat)
    decreases d
  {
    k < |h| && Formed(h[k]) && !h[k].coinbase &&
    if d == 0 then TxidAt(s, h, k) == g
    else
      && IsStep(s, h, k) && IdentityOf(h, k) == g && h[k].tx.inputs[0].prevout.vout == 0
      && HeadAfter(s, h, g, ParentOf(h, k), d - 1) && ParentOf(h, k) < k
      && (FollowsGenesis(h, k) <==> d == 1)
  }

  /** How many steps lead to a step, by the predecessors it claims. */
  function StepsTo(h: History, k: nat): nat {
    if k < |h| && Formed(h[k]) && ParentOf(h, k) < k && !FollowsGenesis(h, k) then StepsTo(h, ParentOf(h, k)) + 1 else 1
  }

  /** Every confirmed spend of the program descends by an unbroken input-0 to output-0 chain from the transaction
      whose txid it claims as its identity. */
  lemma {:induction false} Descends(s: System, h: History, k: nat)
    requires Confirmed(s, h) && CollisionFree(s, h) && IsStep(s, h, k)
    ensures HeadAfter(s, h, IdentityOf(h, k), k, StepsTo(h, k))
  {
    hide Confirmed, CollisionFree, ClaimOf, Hash256, CabooseSpk, SpentOutput, RootIn, NewRoot, GenesisState;
    if FollowsGenesis(h, k) {
      FirstStep(s, h, k);
      assert Formed(h[ParentOf(h, k)]);
      assert HeadAfter(s, h, IdentityOf(h, k), ParentOf(h, k), 0);
    } else {
      LaterStep(s, h, k);
      Descends(s, h, ParentOf(h, k));
    }
  }

  // ---------- one head ----------

  lemma SameTx(s: System, h: History, k: nat, m: nat)
    requires Confirmed(s, h) && CollisionFree(s, h) && k < |h| && m < |h| && TxidAt(s, h, k) == TxidAt(s, h, m)
    ensures k == m
  {
    hide CollisionFree, Hash256, Hashed, ClaimOf, TxStrings, Resolved, FollowsRules, SpentOnce;
    ClaimHashed(s, h, k);
    ClaimHashed(s, h, m);
    TxidSame(s, h, h[k].tx.Encode(), h[m].tx.Encode());
    EncodeInjective(h[k].tx, h[m].tx);
  }

  lemma SameSpend(s: System, h: History, k: nat, m: nat)
    requires Confirmed(s, h) && k < |h| && m < |h| && !h[k].coinbase && !h[m].coinbase
    requires ParentOf(h, k) == ParentOf(h, m)
    requires h[k].tx.inputs[0].prevout.vout == 0 && h[m].tx.inputs[0].prevout.vout == 0
    ensures k == m
  {
    hide Resolved, FollowsRules;
    assert Point(h[k], 0) == Point(h[m], 0);
  }

  /** What a head after some steps says of the head before it. */
  lemma HeadBefore(s: System, h: History, g: bytes, k: nat, d: nat)
    requires d > 0 && HeadAfter(s, h, g, k, d)
    ensures k < |h| && Formed(h[k]) && !h[k].coinbase && h[k].tx.inputs[0].prevout.vout == 0
    ensures ParentOf(h, k) < k && HeadAfter(s, h, g, ParentOf(h, k), d - 1)
  {
    hide ClaimOf, Hash256, SpendsProgram, FollowsGenesis;
  }

  /** A bridge has one head after any number of steps. */
  lemma {:induction false} OneHeadAfter(s: System, h: History, g: bytes, k: nat, m: nat, d: nat)
    requires Confirmed(s, h) && CollisionFree(s, h) && HeadAfter(s, h, g, k, d) && HeadAfter(s, h, g, m, d)
    ensures k == m
    decreases d
  {
    hide Confirmed, CollisionFree, ClaimOf, Hash256, SpendsProgram, Formed, FollowsGenesis, IdentityOf;
    if d == 0 {
      SameTx(s, h, k, m);
    } else {
      HeadBefore(s, h, g, k, d);
      HeadBefore(s, h, g, m, d);
      OneHeadAfter(s, h, g, ParentOf(h, k), ParentOf(h, m), d - 1);
      assert AllFormed(h) by { ConfirmedFormed(s, h); }
      SameSpend(s, h, k, m);
    }
  }

  lemma ConfirmedFormed(s: System, h: History)
    requires Confirmed(s, h)
    ensures AllFormed(h)
  {
  }

  /** Output 0 of entry `k` has not been spent. */
  predicate Unspent(h: History, k: nat)
    requires AllFormed(h)
  {
    forall j, i :: 0 <= j < |h| && 0 <= i < |h[j].tx.inputs| && !h[j].coinbase ==> Point(h[j], i) != (k, 0)
  }

  lemma HeadBelow(s: System, h: History, g: bytes, k: nat, d: nat)
    requires HeadAfter(s, h, g, k, d)
    ensures k < |h|
  {
  }

  lemma SpentBy(h: History, k: nat, m: nat)
    requires AllFormed(h) && m < |h| && !h[m].coinbase
    requires ParentOf(h, m) == k && h[m].tx.inputs[0].prevout.vout == 0
    ensures !Unspent(h, k)
  {
    assert Point(h[m], 0) == (k, 0);
  }

  /** A head with a later head above it has been spent. */
  lemma {:induction false} EarlierIsSpent(s: System, h: History, g: bytes, k: nat, d: nat, m: nat, n: nat)
    requires Confirmed(s, h) && CollisionFree(s, h) && HeadAfter(s, h, g, k, d) && HeadAfter(s, h, g, m, n) && d < n
    ensures AllFormed(h) && !Unspent(h, k)
    decreases n
  {
    hide Confirmed, CollisionFree, HeadAfter, Formed, Unspent;
    ConfirmedFormed(s, h);
    HeadBefore(s, h, g, m, n);
    HeadBelow(s, h, g, k, d);
    var f := ParentOf(h, m);
    if d == n - 1 {
      OneHeadAfter(s, h, g, k, f, d);
      SpentBy(h, k, m);
    } else {
      EarlierIsSpent(s, h, g, k, d, f, n - 1);
    }
  }

  /** An identity never has two unspent heads. */
  lemma OneUnspentHead(s: System, h: History, g: bytes, k: nat, d: nat, m: nat, n: nat)
    requires Confirmed(s, h) && CollisionFree(s, h) && HeadAfter(s, h, g, k, d) && HeadAfter(s, h, g, m, n)
    requires AllFormed(h)
    requires Unspent(h, k) && Unspent(h, m)
    ensures k == m && d == n
  {
    hide Confirmed, CollisionFree, HeadAfter, Unspent;
    if d < n {
      EarlierIsSpent(s, h, g, k, d, m, n);
    } else if n < d {
      EarlierIsSpent(s, h, g, m, n, k, d);
    } else {
      OneHeadAfter(s, h, g, k, m, d);
    }
  }
}
