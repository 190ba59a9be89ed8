// What the byte checks of a head accept, as transactions: exactly the genesis of the bridge and its steps.
module Heads {
  import opened Bytes
  import opened Transactions
  import opened Statements
  import opened Script
  import opened TxContext
  import opened Linearization
  import opened Deposit
  import opened BridgeHead
  import opened BridgeOutputs
  import opened BridgeStatement
  import opened Lineage
  import opened Completeness

  // ---------- reading a serialized transaction ----------

  lemma ShapeMeans(p: Tx, ins: byte, outs: byte)
    requires p.WellFormed() && ins < 0xfd && outs < 0xfd
    ensures PlainShape(p.Encode(), ins, outs) <==> p.Plain(ins, outs)
    ensures p.Plain(ins, outs) ==> |p.Encode()| == PlainSize(ins, outs) && FieldsRead(p, ins, outs)
  {
    hide PlainShape, FieldsRead;
    if PlainShape(p.Encode(), ins, outs) {
      PlainDecode(p, ins, outs);
    }
    if p.Plain(ins, outs) {
      PlainHasShape(p, ins, outs);
      PlainLengths(p, ins, outs);
      PlainFields(p, ins, outs);
    }
  }

  lemma SpkMeans(p: Tx, ins: byte, outs: byte, j: nat, spk: bytes)
    requires p.Plain(ins, outs) && FieldsRead(p, ins, outs) && j < outs && |spk| == 34
    ensures At(p.Encode(), OutputOffset(ins, j) + 9, spk) <==> p.outputs[j].spk == spk
  {
    hide At, LE;
    if At(p.Encode(), OutputOffset(ins, j) + 9, spk) {
      OutputReads(p, ins, outs, j, spk);
    }
  }

  lemma AmountMeans(p: Tx, ins: byte, outs: byte, j: nat, v: nat)
    requires p.Plain(ins, outs) && FieldsRead(p, ins, outs) && j < outs && v < U64
    ensures At(p.Encode(), OutputOffset(ins, j), LE(v, 8)) <==> p.outputs[j].amount == v
  {
    hide At, LE;
    var b, u := p.Encode(), p.outputs[j].amount;
    assert At(b, OutputOffset(ins, j), LE(u, 8)) && p.outputs[j].Plain();
    if At(b, OutputOffset(ins, j), LE(v, 8)) {
      AtSame(b, OutputOffset(ins, j), LE(u, 8), LE(v, 8));
      Pow256Values();
      LEInjective(u, v, 8);
    }
  }

  lemma LinkMeans(sha: Hash, p: Tx, ins: byte, outs: byte, ancestor: bytes)
    requires p.Plain(ins, outs) && 0 < ins && FieldsRead(p, ins, outs)
    ensures LinksTo(sha, p.Encode(), ancestor) <==> p.inputs[0].prevout == OutPoint(Hash256(sha, ancestor), 0)
  {
    hide Hash256, LE;
    if LinksTo(sha, p.Encode(), ancestor) {
      LinkReads(sha, p, ins, outs, ancestor);
    }
    var b, o := p.Encode(), p.inputs[0].prevout;
    assert At(b, InputOffset(0), o.Encode());
    AtJoin(b, 5, o.txid, LE(o.vout, 4));
    LEZero(4);
  }

  // ---------- the head a deposit joins ----------

  /** The head pays `v` to the program in output 0 and 330 to the caboose of its state in the last. */
  predicate PaysHead(sha: Hash, p: Tx, ins: nat, outs: nat, v: nat, spk: bytes, state: bytes) {
    && outs > 0 && p.Plain(ins, outs) && p.outputs[0] == TxOut(v, spk)
    && p.outputs[outs - 1] == TxOut(330, CabooseSpk(sha, state))
  }

  lemma PaysMeans(sha: Hash, p: Tx, hd: Head, ins: byte, outs: byte, v: nat)
    requires p.WellFormed() && hd.parent == p.Encode() && hd.amount == LE(v, 8) && v < U64 && |hd.spk| == 34
    requires 0 < ins < 0xfd && 1 < outs < 0xfd
    ensures Pays(sha, hd, ins, outs) <==> PaysHead(sha, p, ins, outs, v, hd.spk, hd.oldState)
  {
    hide PlainShape, FieldsRead, At, LE, CabooseSpk, Tx.Plain, Tx.Encode;
    ShapeMeans(p, ins, outs);
    CabooseLength(sha, hd.oldState);
    if p.Plain(ins, outs) {
      assert |p.outputs| == outs by { OutputCount(p, ins, outs); }
      SpkMeans(p, ins, outs, 0, hd.spk);
      AmountMeans(p, ins, outs, 0, v);
      SpkMeans(p, ins, outs, outs - 1, CabooseSpk(sha, hd.oldState));
      AmountMeans(p, ins, outs, outs - 1, 330);
    }
  }

  lemma OutputCount(p: Tx, ins: nat, outs: nat)
    requires p.Plain(ins, outs)
    ensures |p.outputs| == outs && |p.inputs| == ins
  {
  }

  /** A deposit joins exactly the genesis or a collection or settlement: one that pays the program what input 0 spends,
      commits to the shown state, and is named by, or names, the bridge. */
  lemma JoinsExact(sha: Hash, p: Tx, hd: Head, v: nat)
    requires p.WellFormed() && hd.parent == p.Encode() && hd.amount == LE(v, 8) && v < U64 && |hd.spk| == 34
    requires |hd.bridgeId| == 32
    ensures JoinsHead(sha, hd) <==>
            || (PaysHead(sha, p, 1, 2, v, hd.spk, hd.oldState) && |hd.oldState| == 41
                && At(hd.oldState, 0, GENESIS_MARK)
                && Hash256(sha, p.Encode()) == hd.bridgeId)
            || ((PaysHead(sha, p, 4, 3, v, hd.spk, hd.oldState) || PaysHead(sha, p, 2, 4, v, hd.spk, hd.oldState))
                && |hd.oldState| == 73 && At(hd.oldState, 0, ACTIVE_MARK) && At(hd.oldState, 9, hd.bridgeId))
  {
    hide PlainShape, FieldsRead, At, LE, CabooseSpk, Pays, Hash256, Tx.Plain, Tx.Encode;
    PaysMeans(sha, p, hd, 1, 2, v);
    PaysMeans(sha, p, hd, 4, 3, v);
    PaysMeans(sha, p, hd, 2, 4, v);
    SizesApart(p);
  }

  lemma SizesApart(p: Tx)
    requires p.WellFormed()
    ensures p.Plain(1, 2) ==> |p.Encode()| == 137
    ensures p.Plain(4, 3) ==> |p.Encode()| == 303
    ensures p.Plain(2, 4) ==> |p.Encode()| == 264
  {
    hide PlainShape, FieldsRead, Tx.Plain, Tx.Encode;
    ShapeMeans(p, 1, 2);
    ShapeMeans(p, 4, 3);
    ShapeMeans(p, 2, 4);
  }

  // ---------- the head a program continues ----------

  lemma AncestorMeans(a: Tx, spk: bytes)
    requires a.WellFormed() && |spk| == 34
    ensures AncestorPays(a.Encode(), spk) <==> PaysProgram(a, spk)
  {
    hide PlainShape, FieldsRead, At, Tx.Plain, Tx.Encode;
    SizesApart(a);
    ShapeMeans(a, 1, 2);
    ShapeMeans(a, 4, 3);
    ShapeMeans(a, 2, 4);
    if a.Plain(4, 3) {
      OutputCount(a, 4, 3);
      SpkMeans(a, 4, 3, 0, spk);
    } else if a.Plain(2, 4) {
      OutputCount(a, 2, 4);
      SpkMeans(a, 2, 4, 0, spk);
    } else if a.Plain(1, 2) {
      OutputCount(a, 1, 2);
      SpkMeans(a, 1, 2, 0, spk);
    }
  }

  /** The transaction that names the bridge: it commits to the pinned state and spends output 0 of a transaction that
      pays the sponsor there. */
  predicate IsGenesis(t: Terms, p: Tx, a: Tx, v: nat, spk: bytes, id: bytes, state: bytes) {
    && PaysHead(t.sha, p, 1, 2, v, spk, state) && p.inputs[0].prevout == OutPoint(Hash256(t.sha, a.Encode()), 0)
    && a.Plain(1, 2) && a.outputs[0].spk == t.sponsor && state == GenesisState(t.genesisRoot)
    && Hash256(t.sha, p.Encode()) == id
  }

  /** A collection, or a settlement, with the sponsor's change next to last, that spends output 0 of a transaction
      paying the program there, and commits to an active state of the bridge. */
  predicate IsLater(t: Terms, p: Tx, a: Tx, v: nat, spk: bytes, id: bytes, state: bytes) {
    && ((PaysHead(t.sha, p, 4, 3, v, spk, state) && p.outputs[1].spk == t.sponsor)
        || (PaysHead(t.sha, p, 2, 4, v, spk, state) && p.outputs[2].spk == t.sponsor))
    && p.inputs[0].prevout == OutPoint(Hash256(t.sha, a.Encode()), 0) && PaysProgram(a, spk)
    && |state| == 73 && state == ActiveState(id, state[41..73])
  }

  lemma GenesisStateMeans(state: bytes, root: bytes)
    requires |root| == 32
    ensures |state| == 41 && At(state, 0, GENESIS_MARK) && At(state, 9, root) <==> state == GenesisState(root)
  {
    GenesisLength(root);
    if |state| == 41 && At(state, 0, GENESIS_MARK) && At(state, 9, root) {
      assert state == state[0..9] + state[9..41];
    }
  }

  lemma GenesisMeans(t: Terms, c: Context, x: Claim, p: Tx, a: Tx)
    requires t.Valid() && p.WellFormed() && a.WellFormed() && x.parent == p.Encode() && x.ancestor == a.Encode()
    requires |c.spent| > 0 && c.spent[0].WellFormed() && |c.spent[0].spk| == 34
    ensures GenesisParent(t, c, x) <==>
            IsGenesis(t, p, a, c.spent[0].amount, c.spent[0].spk, x.bridgeId, x.oldState)
  {
    hide PlainShape, FieldsRead, At, LE, CabooseSpk, Pays, LinksTo, Hash256, Tx.Plain, Tx.Encode, GenesisState;
    var hd := HeadIn(c, x);
    PaysMeans(t.sha, p, hd, 1, 2, c.spent[0].amount);
    GenesisStateMeans(x.oldState, t.genesisRoot);
    ShapeMeans(a, 1, 2);
    ShapeMeans(p, 1, 2);
    if a.Plain(1, 2) {
      OutputCount(a, 1, 2);
      SpkMeans(a, 1, 2, 0, t.sponsor);
    }
    if p.Plain(1, 2) {
      OutputCount(p, 1, 2);
      LinkMeans(t.sha, p, 1, 2, a.Encode());
    }
  }

  lemma ActiveMeans(state: bytes, id: bytes)
    requires |id| == 32
    ensures |state| == 73 && At(state, 0, ACTIVE_MARK) && At(state, 9, id) <==>
            |state| == 73 && state == ActiveState(id, state[41..73])
  {
    if |state| == 73 {
      if At(state, 0, ACTIVE_MARK) && At(state, 9, id) {
        ActiveParts(state, id);
      }
      ActiveReads(id, state[41..73]);
    }
  }

  lemma LaterMeans(t: Terms, c: Context, x: Claim, p: Tx, a: Tx)
    requires t.Valid() && p.WellFormed() && a.WellFormed() && x.parent == p.Encode() && x.ancestor == a.Encode()
    requires |c.spent| > 0 && c.spent[0].WellFormed() && |c.spent[0].spk| == 34 && |x.bridgeId| == 32
    ensures ContinuedParent(t, c, x) <==>
            IsLater(t, p, a, c.spent[0].amount, c.spent[0].spk, x.bridgeId, x.oldState)
  {
    hide PlainShape, FieldsRead, At, LE, CabooseSpk, Pays, LinksTo, Hash256, Tx.Plain, Tx.Encode, ActiveState;
    hide AncestorPays;
    hide PaysProgram;
    var hd, v := HeadIn(c, x), c.spent[0].amount;
    PaysMeans(t.sha, p, hd, 4, 3, v);
    PaysMeans(t.sha, p, hd, 2, 4, v);
    ActiveMeans(x.oldState, x.bridgeId);
    AncestorMeans(a, c.spent[0].spk);
    SizesApart(p);
    ShapeMeans(p, 4, 3);
    ShapeMeans(p, 2, 4);
    if p.Plain(4, 3) {
      OutputCount(p, 4, 3);
      SpkMeans(p, 4, 3, 1, t.sponsor);
      LinkMeans(t.sha, p, 4, 3, a.Encode());
    }
    if p.Plain(2, 4) {
      OutputCount(p, 2, 4);
      SpkMeans(p, 2, 4, 2, t.sponsor);
      LinkMeans(t.sha, p, 2, 4, a.Encode());
    }
  }

  /** The head checks of both programs accept, of well-formed transactions, exactly these: input 0 spends the claimed
      predecessor, which is the genesis of the claimed bridge or a later step of it, in the claimed state, and the new
      state is an active one of the same bridge. */
  lemma HeadExact(t: Terms, c: Context, x: Claim, p: Tx, a: Tx)
    requires t.Valid() && WellFormed(c) && p.WellFormed() && a.WellFormed() && x.parent == p.Encode()
    requires x.ancestor == a.Encode() && |c.spent| > 0 && |c.spent[0].spk| == 34 && |x.bridgeId| == 32
    ensures |c.tx.inputs| > 0
    ensures ParentAccepted(t, c, x) <==>
            && c.tx.inputs[0].prevout.txid == Hash256(t.sha, p.Encode())
            && (IsGenesis(t, p, a, c.spent[0].amount, c.spent[0].spk, x.bridgeId, x.oldState)
                || IsLater(t, p, a, c.spent[0].amount, c.spent[0].spk, x.bridgeId, x.oldState))
            && |x.newState| == 73 && x.newState == ActiveState(x.bridgeId, x.newState[41..73])
  {
    hide GenesisParent, ContinuedParent, IsGenesis, IsLater, Hash256, Prevouts, At, Tx.Encode, ActiveState;
    FirstInput(c);
    FirstPrevout(c);
    var o := c.tx.inputs[0].prevout.txid;
    if At(Prevouts(c), 0, Hash256(t.sha, p.Encode())) {
      AtSame(Prevouts(c), 0, Hash256(t.sha, p.Encode()), o);
    }
    ActiveMeans(x.newState, x.bridgeId);
    GenesisMeans(t, c, x, p, a);
    LaterMeans(t, c, x, p, a);
    GenesisIsShort(t, p, a, c.spent[0].amount, c.spent[0].spk, x.bridgeId, x.oldState);
  }

  lemma FirstInput(c: Context)
    requires WellFormed(c) && |c.spent| > 0
    ensures |c.tx.inputs| > 0 && c.tx.WellFormed() && c.spent[0].WellFormed() && |c.tx.inputs[0].prevout.txid| == 32
  {
  }

  lemma GenesisIsShort(t: Terms, p: Tx, a: Tx, v: nat, spk: bytes, id: bytes, state: bytes)
    requires p.WellFormed()
    ensures IsGenesis(t, p, a, v, spk, id, state) ==> |p.Encode()| == 137
    ensures IsLater(t, p, a, v, spk, id, state) ==> |p.Encode()| != 137
  {
    hide Tx.Plain, Tx.Encode, CabooseSpk, Hash256, PaysProgram;
    SizesApart(p);
  }
}
