// A bridge can always go on: the host's collection or settlement entry may follow any confirmed history whose head is
// unspent, given a proof that the verifier accepts.
module Progress {
  import opened Bytes
  import opened Transactions
  import opened Statements
  import opened Script
  import opened TxContext
  import opened Linearization
  import opened Deposit
  import opened DepositLeaf
  import opened BridgeHead
  import opened BridgeOutputs
  import opened BridgeDeposits
  import opened BridgeStatement
  import opened BridgeDigest
  import opened BridgePrograms
  import opened BridgeRuns
  import opened Accounts
  import opened Transitions
  import opened Ledger
  import opened Attested
  import opened Lineage
  import opened Completeness
  import opened Extension

  /** What to do with the head: collect two deposits, or pay out under the digests of three signed messages. */
  datatype Action = Collecting(a: Ticket, b: Ticket)
                  | Settling(payout: TxOut, native: bytes, scoped: bytes, withdrawal: bytes)

  /** Which outputs to spend, head first and sponsor last, for what, and with what proof. */
  datatype Plan = Plan(at: seq<(nat, nat)>, ancestor: nat, id: bytes, state: bytes, newRoot: bytes, action: Action,
                       base: seq<bytes>, proof: ProofInput) {
    function Size(): nat { if action.Collecting? then 4 else 2 }

    function Sponsor(): nat { Size() - 1 }
  }

  predicate Places(h: History, q: Plan) {
    && |q.at| == q.Size() && q.at[0].1 == 0 && q.ancestor < |h|
    && forall i :: 0 <= i < q.Size() ==> q.at[i].0 < |h| && q.at[i].1 < |h[q.at[i].0].tx.outputs|
  }

  function CoinAt(s: System, h: History, f: nat, v: nat): Coin
    requires f < |h| && v < |h[f].tx.outputs|
  {
    Coin(OutPoint(TxidAt(s, h, f), v), h[f].tx.outputs[v])
  }

  function Coins(s: System, h: History, q: Plan): (c: seq<Coin>)
    requires Places(h, q)
    ensures |c| == q.Size() && forall i :: 0 <= i < q.Size() ==> c[i] == CoinAt(s, h, q.at[i].0, q.at[i].1)
  {
    seq(q.Size(), i requires 0 <= i < q.Size() && Places(h, q) => CoinAt(s, h, q.at[i].0, q.at[i].1))
  }

  function PlannedTx(s: System, h: History, q: Plan): Tx
    requires Places(h, q)
  {
    var c, state := Coins(s, h, q), ActiveState(q.id, q.newRoot);
    match q.action
    case Collecting(_, _) => CollectTx(s.t, c[0], c[1], c[2], c[3], state)
    case Settling(payout, _, _, _) => SettleTx(s.t, c[0], payout, c[1], state)
  }

  function PlannedSpent(s: System, h: History, q: Plan): seq<TxOut>
    requires Places(h, q)
  {
    var c := Coins(s, h, q);
    if q.action.Collecting? then [c[0].out, c[1].out, c[2].out, c[3].out] else [c[0].out, c[1].out]
  }

  function PlannedContext(s: System, h: History, q: Plan, index: nat): Context
    requires Places(h, q)
  {
    Context(PlannedTx(s, h, q), PlannedSpent(s, h, q), index, [])
  }

  function PlannedWorld(s: System, h: History, q: Plan, index: nat): World
    requires Places(h, q)
  {
    World(s.t.sha, s.tweak, s.sig, s.cut, s.other, PlannedContext(s, h, q, index))
  }

  function PlannedHost(h: History, q: Plan): Claim
    requires Places(h, q)
  {
    HostClaim(h[q.at[0].0].tx, h[q.ancestor].tx, q.id, q.state, q.newRoot)
  }

  /** The statement the transaction determines. */
  function PlannedStatement(s: System, h: History, q: Plan): Statement
    requires Places(h, q) && |s.t.keys| == 3 && PayoutCovered(s, h, q)
  {
    var c := PlannedContext(s, h, q, 0);
    var x := PlannedHost(h, q);
    match q.action
    case Collecting(a, b) => CollectionStatement(s.t, c, x, a.recipient, b.recipient)
    case Settling(payout, native, scoped, withdrawal) =>
      TransferWithdraw(HeaderFor(c, x, Coins(s, h, q)[0].out.amount - payout.amount), native, scoped, withdrawal,
                       payout)
  }

  predicate PayoutCovered(s: System, h: History, q: Plan)
    requires Places(h, q)
  {
    q.action.Settling? ==> q.action.payout.amount <= Coins(s, h, q)[0].out.amount
  }

  /** The witness claim, with that statement. */
  function PlannedClaim(s: System, h: History, q: Plan): Claim
    requires Places(h, q) && |s.t.keys| == 3 && PayoutCovered(s, h, q)
  {
    PlannedHost(h, q).(values := PlannedStatement(s, h, q).Encode())
  }

  function PlannedLeaf(s: System, q: Plan, k: Ticket): Leaf
    requires |s.t.keys| == 3 && Val(k.recipient) < 3
  {
    Leaf(s.spk, q.id, Val(k.recipient), s.t.keys[Val(k.recipient)], k.refund)
  }

  /** What the parts of an entry are built from. */
  predicate Meant(s: System, h: History, q: Plan) {
    && Places(h, q) && |s.t.keys| == 3 && PayoutCovered(s, h, q)
    && (q.action.Collecting? ==> Val(q.action.a.recipient) < 3 && Val(q.action.b.recipient) < 3)
  }

  function PlannedSpends(s: System, h: History, q: Plan): seq<Spend>
    requires Meant(s, h, q)
  {
    var x, collect := PlannedClaim(s, h, q), [h[q.at[0].0].tx.Encode(), q.state, []];
    match q.action
    case Collecting(a, b) =>
      [ByCollection(CollectionStack(q.base, x, a, b)), ByLeaf(LeafBytes(PlannedLeaf(s, q, a)), collect),
       ByLeaf(LeafBytes(PlannedLeaf(s, q, b)), collect), Otherwise]
    case Settling(_, _, _, _) => [BySettlement(SettlementStack(q.base, x)), Otherwise]
  }

  function PlannedEntry(s: System, h: History, q: Plan): Entry
    requires Meant(s, h, q)
  {
    Entry(PlannedTx(s, h, q), false, seq(|q.at|, i requires 0 <= i < |q.at| => q.at[i].0), PlannedSpends(s, h, q),
          seq(|q.at|, _ => []), Some(q.proof), [])
  }

  /** The outputs besides head and sponsor: two deposits into the bridge, or a payout within the head. */
  predicate ActionFunded(s: System, h: History, q: Plan)
    requires Places(h, q) && s.t.Valid()
  {
    var c, w := Coins(s, h, q), PlannedWorld(s, h, q, 0);
    match q.action
    case Collecting(a, b) =>
      && DepositCoin(s.t, w, c[1], s.spk, q.id, a) && DepositCoin(s.t, w, c[2], s.spk, q.id, b)
      && c[0].out.amount + c[1].out.amount + c[2].out.amount < U64 && c[1].out.spk != s.spk && c[2].out.spk != s.spk
    case Settling(payout, native, scoped, withdrawal) =>
      && payout.Plain() && payout.amount <= c[0].out.amount && |native| == 32 && |scoped| == 32 && |withdrawal| == 32
  }

  /** Besides the head, the plan spends what its action needs and a sponsor coin worth the fee and the caboose. */
  ghost predicate Funded(s: System, h: History, q: Plan) {
    && s.Valid() && s.t.Valid() && Places(h, q) && |q.newRoot| == 32 && ActionFunded(s, h, q)
    && SponsorCoin(s.t, Coins(s, h, q)[q.Sponsor()]) && SponsorFree(s, h, q)
  }

  /** The sponsor coin is spent by no rule of this model. */
  predicate SponsorFree(s: System, h: History, q: Plan)
    requires Places(h, q)
  {
    var out := Coins(s, h, q)[q.Sponsor()].out;
    && out.spk != s.spk
    && forall l :: l in h[q.at[q.Sponsor()].0].leaves
         ==> TapSpk(PlannedWorld(s, h, q, 0), LeafBytes(l)) != Some(out.spk)
  }

  /** The plan spends a head, the genesis one included. */
  predicate FromHead(s: System, h: History, q: Plan) {
    && Places(h, q) && Coins(s, h, q)[0].out.spk == s.spk
    && HeadCoin(s.t, Coins(s, h, q)[0], h[q.at[0].0].tx, h[q.ancestor].tx, q.id, q.state)
  }

  ghost predicate Sound(s: System, h: History, q: Plan) { Funded(s, h, q) && FromHead(s, h, q) }

  /** The proof is one the verifier accepts, for the statement of the planned transaction. */
  predicate ProofReady(s: System, h: History, q: Plan)
    requires Places(h, q) && |s.t.keys| == 3 && PayoutCovered(s, h, q)
  {
    && |q.base| >= 2 && Attests(s, q.base, Some(q.proof))
    && InputIs(q.base[1], MaskedDigest(s.t.sha, PlannedClaim(s, h, q).values))
    && Accepted(RunBytes(s.verifier, Fresh(q.base), PlannedWorld(s, h, q, 0)))
  }

  /** A collection of the planned head and deposits. */
  predicate DescribesCollection(s: System, h: History, q: Plan, i: Collection)
    requires Places(h, q) && q.action.Collecting?
  {
    var x, c := PlannedHost(h, q), Coins(s, h, q);
    && i.WellFormed() && CollectionSpec(s.crypto, i).Ok? && |s.t.keys| == 3
    && RootOf(s.crypto.sha, i.oldState) == RootIn(x)
    && RootOf(s.crypto.sha, CollectionSpec(s.crypto, i).value.newState) == NewRoot(x)
    && i.bridgeId == q.id && i.prevout == c[0].at && i.oldBacking == c[0].out.amount
    && (forall k :: 0 <= k < 3 ==> i.oldState[k].key == s.t.keys[k])
    && i.deposits[0] == DepositInput(c[1].at, c[1].out.amount, Val(q.action.a.recipient))
    && i.deposits[1] == DepositInput(c[2].at, c[2].out.amount, Val(q.action.b.recipient))
  }

  /** A settlement of the planned head, with the planned payout and messages. */
  predicate DescribesSettlement(s: System, h: History, q: Plan, i: Settlement)
    requires Places(h, q) && q.action.Settling?
  {
    var x, c, sha := PlannedHost(h, q), Coins(s, h, q), s.crypto.sha;
    && i.WellFormed() && SettlementSpec(s.crypto, i).Ok?
    && RootOf(sha, i.oldState) == RootIn(x) && RootOf(sha, SettlementSpec(s.crypto, i).value.newState) == NewRoot(x)
    && i.bridgeId == q.id && i.prevout == c[0].at && i.oldBacking == c[0].out.amount
    && q.action == Settling(TxOut(i.withdrawalAmount, i.destination), Sha(sha, NativeOf(s.crypto, i)),
                            Sha(sha, ScopedMessage(s.crypto, i.bridgeId, NativeOf(s.crypto, i))),
                              Sha(sha, WithdrawalOf(i)))
  }

  predicate Describes(s: System, h: History, q: Plan)
    requires Places(h, q)
  {
    match q.proof
    case Collect(i) => q.action.Collecting? && DescribesCollection(s, h, q, i)
    case Settle(i) => q.action.Settling? && DescribesSettlement(s, h, q, i)
  }

  /** A proof input that describes the step has the statement the program demands, so an accepting verifier is all a
      ready proof needs. */
  lemma DescribedIsReady(s: System, h: History, q: Plan)
    requires Places(h, q) && |s.t.keys| == 3 && PayoutCovered(s, h, q) && Describes(s, h, q) && |q.base| >= 2
    requires s.crypto.sha == s.t.sha && InputIs(q.base[1], MaskedDigest(s.t.sha, PlannedClaim(s, h, q).values))
    requires Accepted(RunBytes(s.verifier, Fresh(q.base), PlannedWorld(s, h, q, 0)))
    ensures ProofReady(s, h, q)
  {
    hide InputIs, MaskedDigest, RunBytes, Accepted, Transitioned, RootOf, ScopedMessage, WithdrawalOf, Sha, Val, RootIn;
    hide NewRoot;
    DescribedStatement(s, h, q);
  }

  lemma DescribedStatement(s: System, h: History, q: Plan)
    requires Places(h, q) && |s.t.keys| == 3 && PayoutCovered(s, h, q) && Describes(s, h, q)
    ensures q.proof.WellFormed() && Transitioned(s.crypto, q.proof).Ok?
    ensures Transitioned(s.crypto, q.proof).value.statement == PlannedStatement(s, h, q).Encode()
  {
    hide DescribesCollection, DescribesSettlement, CollectionSpec, SettlementSpec, PlannedStatement;
    if q.proof.Collect? {
      DescribedCollection(s, h, q, q.proof.collection);
    } else {
      DescribedSettlement(s, h, q, q.proof.settlement);
    }
  }

  lemma DescribedCollection(s: System, h: History, q: Plan, i: Collection)
    requires Places(h, q) && |s.t.keys| == 3 && PayoutCovered(s, h, q) && q.action.Collecting?
             && DescribesCollection(s, h, q, i)
    ensures i.WellFormed() && CollectionSpec(s.crypto, i).Ok?
    ensures CollectionSpec(s.crypto, i).value.statement == PlannedStatement(s, h, q).Encode()
  {
    hide RootOf, Sha, Val, RootIn, NewRoot, CollectionSpec, CollectionStatement, ActiveState, CabooseSpk, Hash256;
    CollectionProvable(s.t, PlannedContext(s, h, q, 0), s.crypto, i, PlannedHost(h, q), q.action.a, q.action.b,
                       Coins(s, h, q));
  }

  lemma DescribedSettlement(s: System, h: History, q: Plan, i: Settlement)
    requires Places(h, q) && |s.t.keys| == 3 && PayoutCovered(s, h, q) && q.action.Settling?
             && DescribesSettlement(s, h, q, i)
    ensures i.WellFormed() && SettlementSpec(s.crypto, i).Ok?
    ensures SettlementSpec(s.crypto, i).value.statement == PlannedStatement(s, h, q).Encode()
  {
    hide RootOf, Sha, RootIn, NewRoot, SettlementSpec, HeaderFor, ActiveState, CabooseSpk, Hash256, ScopedMessage;
    hide WithdrawalOf;
    hide Statement.Encode;
    SettlementProvable(PlannedContext(s, h, q, 0), s.crypto, i, PlannedHost(h, q));
  }

  // ---------- the entry resolves ----------

  /** The parts of a sound plan that say nothing of digests. */
  predicate Laid(s: System, h: History, q: Plan) {
    && Meant(s, h, q) && PlannedTx(s, h, q).WellFormed()
    && forall i :: 0 <= i < q.Size() ==> GoodCoin(Coins(s, h, q)[i])
  }

  lemma SoundLaid(s: System, h: History, q: Plan)
    requires Sound(s, h, q)
    ensures Laid(s, h, q)
  {
    hide Deployed, TapSpk, LeafBytes, GenesisTx, StepTx, ActiveState, Hash256, CabooseSpk, Val, SponsorFree;
    var c, state := Coins(s, h, q), ActiveState(q.id, q.newRoot);
    if q.action.Collecting? {
      forall i | 0 <= i < 4 ensures GoodCoin(c[i]) {
        assert i == 0 || i == 1 || i == 2 || i == 3;
      }
      CollectWellFormed(s.t, c[0], c[1], c[2], c[3], state);
    } else {
      forall i | 0 <= i < 2 ensures GoodCoin(c[i]) {
        assert i == 0 || i == 1;
      }
      SettleWellFormed(s.t, c[0], q.action.payout, c[1], state);
    }
  }

  lemma SoundLeaf(s: System, h: History, q: Plan, k: Ticket)
    requires Sound(s, h, q) && q.action.Collecting? && (k == q.action.a || k == q.action.b)
    ensures |s.t.keys| == 3 && Val(k.recipient) < 3 && PlannedLeaf(s, q, k).Valid()
  {
    hide Deployed, TapSpk, LeafBytes, GenesisTx, StepTx, ActiveState, Hash256, CabooseSpk, Val, SponsorFree;
  }

  lemma PlanInputs(s: System, h: History, q: Plan, i: nat)
    requires Places(h, q) && i < q.Size()
    ensures |PlannedTx(s, h, q).inputs| == |PlannedSpent(s, h, q)| == q.Size()
    ensures PlannedTx(s, h, q).inputs[i].prevout == Coins(s, h, q)[i].at
            && PlannedSpent(s, h, q)[i] == Coins(s, h, q)[i].out
  {
    hide CabooseSpk, Hash256, ActiveState;
    if q.action.Collecting? {
      assert i == 0 || i == 1 || i == 2 || i == 3;
    } else {
      assert i == 0 || i == 1;
    }
  }

  lemma PlanPlain(s: System, h: History, q: Plan)
    requires Laid(s, h, q)
    ensures var e := PlannedEntry(s, h, q);
            && !e.coinbase && |e.tx.inputs| == |e.source| == |e.spends| == |e.annexes| == q.Size() && Formed(e)
            && e.tx == PlannedTx(s, h, q) && e.spends == PlannedSpends(s, h, q) && e.proof == Some(q.proof)
            && forall i :: 0 <= i < q.Size() ==> e.source[i] == q.at[i].0 && e.annexes[i] == []
  {
    hide PlannedTx, PlannedClaim, CollectionStack, SettlementStack, Val, LeafBytes, PlannedLeaf, GoodCoin;
    hide PayoutCovered;
    PlanInputs(s, h, q, 0);
  }

  lemma PlanResolves(s: System, h: History, q: Plan)
    requires Laid(s, h, q) && AllFormed(h)
    ensures Ordinary(s, Grow(h, PlannedEntry(s, h, q)), |h|)
  {
    hide Hash256, Formed, GoodCoin, PlannedEntry, Val, PlannedTx, PlannedSpends, PayoutCovered;
    PlanPlain(s, h, q);
    var e, n := PlannedEntry(s, h, q), |h|;
    var g := Grow(h, e);
    assert g[n] == e && forall j :: 0 <= j < n ==> g[j] == h[j];
    forall i | 0 <= i < |e.tx.inputs| ensures i < |e.source| && Resolves(s, g, n, i) {
      PlanInputs(s, h, q, i);
    }
  }

  lemma PlanSpent(s: System, h: History, q: Plan)
    requires Laid(s, h, q) && AllFormed(h)
    ensures var g := Grow(h, PlannedEntry(s, h, q));
            && Ordinary(s, g, |h|)
            && SpentOutputs(s, g, |h|) == PlannedSpent(s, h, q)
  {
    hide Hash256, Formed, GoodCoin, PlannedEntry, Val, Ordinary, PlannedTx, PlannedSpent, PlannedSpends, PayoutCovered;
    PlanResolves(s, h, q);
    PlanPlain(s, h, q);
    PlanInputs(s, h, q, 0);
    var e, n := PlannedEntry(s, h, q), |h|;
    var g := Grow(h, e);
    assert g[n] == e && forall j :: 0 <= j < n ==> g[j] == h[j];
    forall i | 0 <= i < q.Size() ensures SpentOutput(s, g, n, i) == PlannedSpent(s, h, q)[i] {
      PlanInputs(s, h, q, i);
    }
  }

  // ---------- its spends follow the rules ----------

  lemma PlanWorld(s: System, h: History, q: Plan, i: nat)
    requires Laid(s, h, q) && AllFormed(h) && i < q.Size()
    ensures var g := Grow(h, PlannedEntry(s, h, q));
            && Ordinary(s, g, |h|) && |g[|h|].tx.inputs| == q.Size()
            && WorldAt(s, g, |h|, i) == PlannedWorld(s, h, q, i)
            && SpentOutput(s, g, |h|, i) == Coins(s, h, q)[i].out
  {
    hide Val, Ordinary, GoodCoin, Hash256, SpentOutputs, PlannedTx, Formed, PlannedSpent, PlannedSpends, PlannedEntry;
    hide PayoutCovered;
    PlanSpent(s, h, q);
    PlanPlain(s, h, q);
    PlanInputs(s, h, q, i);
    var e := PlannedEntry(s, h, q);
    var g := Grow(h, e);
    assert g[|h|] == e && e.annexes[i] == [];
    assert SpentOutputs(s, g, |h|)[i] == SpentOutput(s, g, |h|, i);
  }

  lemma PlanLeaves(s: System, h: History, q: Plan, i: nat)
    requires Laid(s, h, q) && AllFormed(h) && i < q.Size()
    ensures var g := Grow(h, PlannedEntry(s, h, q));
            && Ordinary(s, g, |h|) && |g[|h|].tx.inputs| == q.Size()
            && LeavesBehind(s, g, |h|, i) == h[q.at[i].0].leaves
  {
    hide Val, Ordinary, GoodCoin, Hash256, SpentOutputs, PlannedTx, Formed, PlannedSpends, PlannedEntry, PayoutCovered;
    PlanResolves(s, h, q);
    PlanPlain(s, h, q);
    assert Grow(h, PlannedEntry(s, h, q))[|h|] == PlannedEntry(s, h, q);
  }

  lemma PlanContextFormed(s: System, h: History, q: Plan, i: nat)
    requires Laid(s, h, q) && i < q.Size()
    ensures WellFormed(PlannedContext(s, h, q, i))
  {
    hide CabooseSpk, Hash256, ActiveState, Val, PlannedTx, PlannedSpent;
    PlanInputs(s, h, q, i);
    var c := PlannedContext(s, h, q, i);
    forall k | 0 <= k < |c.spent| ensures c.spent[k].WellFormed() {
      PlanInputs(s, h, q, k);
      assert GoodCoin(Coins(s, h, q)[k]);
    }
  }

  lemma CollectionSpendPlanned(s: System, h: History, q: Plan)
    requires Sound(s, h, q) && Meant(s, h, q) && ProofReady(s, h, q) && q.action.Collecting?
    ensures ProgramRan(s, CollectionPrefix(s.t), 10,
                       CollectionStack(q.base, PlannedClaim(s, h, q), q.action.a, q.action.b),
                       Some(q.proof), PlannedWorld(s, h, q, 0))
  {
    hide CabooseSpk, Hash256, LeafBytes, TapSpk, ActiveState, HeadCoin, SponsorCoin, CollectionAccepted, RunBytes;
    hide CollectionPrefix;
    hide InputIs, MaskedDigest, Attests, Val, CollectionStatement, Accepted, SponsorFree;
    var c, w, x, a, b := Coins(s, h, q), PlannedWorld(s, h, q, 0), PlannedClaim(s, h, q), q.action.a, q.action.b;
    SoundLaid(s, h, q);
    PlanContextFormed(s, h, q, 0);
    CollectionCompletes(s.t, w, c[0], c[1], c[2], c[3], h[q.at[0].0].tx, h[q.ancestor].tx, q.state, q.newRoot, q.id,
                        a, b, q.base[1]);
    assert Deployed(s.t);
    CollectionStackCompletes(s.t, s.verifier, w, q.base, x, a, b);
    var st := CollectionStack(q.base, x, a, b);
    assert st[..|st| - 10] == q.base;
  }

  /** The demands of SettlementCompletes, by name. */
  predicate SettlementLaid(s: System, h: History, q: Plan)
    requires Places(h, q) && q.action.Settling?
  {
    var c, p := Coins(s, h, q), q.action;
    && SponsorCoin(s.t, c[1]) && p.payout.Plain() && p.payout.amount <= c[0].out.amount
    && |p.native| == 32 && |p.scoped| == 32 && |p.withdrawal| == 32
    && PlannedContext(s, h, q, 0)
         == Context(SettleTx(s.t, c[0], p.payout, c[1], ActiveState(q.id, q.newRoot)), [c[0].out, c[1].out], 0, [])
  }

  lemma SoundSettlement(s: System, h: History, q: Plan)
    requires Funded(s, h, q) && q.action.Settling?
    ensures SettlementLaid(s, h, q)
  {
    hide Deployed, TapSpk, LeafBytes, SponsorFree, SponsorCoin, SettleTx, ActiveState;
  }

  lemma SettlementMet(s: System, h: History, q: Plan, item: bytes)
    requires s.t.Valid() && FromHead(s, h, q) && |q.newRoot| == 32 && q.action.Settling? && SettlementLaid(s, h, q)
    requires |s.t.keys| == 3 && PayoutCovered(s, h, q)
             && InputIs(item, MaskedDigest(s.t.sha, PlannedClaim(s, h, q).values))
    ensures SettlementAccepted(s.t, PlannedWorld(s, h, q, 0), PlannedClaim(s, h, q), item)
  {
    hide CabooseSpk, Hash256, ActiveState, HeadCoin, SponsorCoin, SettlementAccepted, InputIs, MaskedDigest, HeaderFor;
    hide SettleTx;
    hide PlannedContext, HostClaim, PlannedTx, PlannedSpent;
    var c, w, p := Coins(s, h, q), PlannedWorld(s, h, q, 0), q.action;
    SettlementCompletes(s.t, w, c[0], c[1], h[q.at[0].0].tx, h[q.ancestor].tx, q.state, q.newRoot, q.id, p.payout,
                        p.native, p.scoped,
                        p.withdrawal, item);
  }

  lemma SettlementSpendPlanned(s: System, h: History, q: Plan)
    requires Sound(s, h, q) && Meant(s, h, q) && ProofReady(s, h, q) && q.action.Settling?
    ensures ProgramRan(s, SettlementPrefix(s.t), 6, SettlementStack(q.base, PlannedClaim(s, h, q)), Some(q.proof),
                       PlannedWorld(s, h, q, 0))
  {
    hide PlannedTx, PlannedSpent, HeadCoin, SettlementAccepted, RunBytes, SettlementPrefix, PlannedClaim;
    hide SettlementLaid, SponsorCoin;
    hide InputIs, MaskedDigest, Attests, Accepted, SponsorFree, ActionFunded, Coins, CompiledTo, BodyCompiled, LeafSize;
    SoundLaid(s, h, q);
    PlanContextFormed(s, h, q, 0);
    SoundSettlement(s, h, q);
    SettlementMet(s, h, q, q.base[1]);
    assert Deployed(s.t);
    var st := SettlementStack(q.base, PlannedClaim(s, h, q));
    SettlementStackCompletes(s.t, s.verifier, PlannedWorld(s, h, q, 0), q.base, PlannedClaim(s, h, q));
    assert st[..|st| - 6] == q.base;
  }

  function TicketFor(q: Plan, i: nat): Ticket
    requires q.action.Collecting?
  {
    if i == 1 then q.action.a else q.action.b
  }

  lemma DepositSpendPlanned(s: System, h: History, q: Plan, i: nat)
    requires Sound(s, h, q) && q.action.Collecting? && (i == 1 || i == 2)
    ensures |s.t.keys| == 3 && Places(h, q)
    ensures var k := TicketFor(q, i);
            && Val(k.recipient) < 3 && |LeafBytes(PlannedLeaf(s, q, k))| < U32
            && Accepted(RunBytes(LeafBytes(PlannedLeaf(s, q, k)), Fresh([h[q.at[0].0].tx.Encode(), q.state, []]),
                                 PlannedWorld(s, h, q, i)))
  {
    hide CabooseSpk, Hash256, LeafBytes, ActiveState, RunBytes, Val, Accepted, BodyCompiled, LeafSize, CompiledTo;
    hide GenesisTx, StepTx, TapSpk, SponsorFree;
    var c, w, k := Coins(s, h, q), PlannedWorld(s, h, q, i), TicketFor(q, i);
    SoundLeaf(s, h, q, k);
    LeafLength(PlannedLeaf(s, q, k));
    assert Deployed(s.t);
    DepositCompletes(s.t, w, c[0], c[1], c[2], c[3], h[q.at[0].0].tx, h[q.ancestor].tx, q.state,
                     ActiveState(q.id, q.newRoot),
                     PlannedLeaf(s, q, k));
  }

  /** The output key a leaf hashes to does not depend on the input that asks. */
  lemma TapApart(s: System, h: History, q: Plan, i: nat, script: bytes)
    requires Places(h, q)
    ensures TapSpk(PlannedWorld(s, h, q, i), script) == TapSpk(PlannedWorld(s, h, q, 0), script)
  {
  }

  lemma DepositKey(s: System, h: History, q: Plan, i: nat)
    requires Sound(s, h, q) && q.action.Collecting? && (i == 1 || i == 2)
    ensures |s.t.keys| == 3 && Places(h, q) && Coins(s, h, q)[i].out.spk != s.spk
    ensures var k := TicketFor(q, i);
            Val(k.recipient) < 3
              && TapSpk(PlannedWorld(s, h, q, i), LeafBytes(PlannedLeaf(s, q, k))) == Some(Coins(s, h, q)[i].out.spk)
  {
    hide HeadCoin, SponsorCoin, Deployed, LeafBytes, TapSpk, Val, SponsorFree;
    TapApart(s, h, q, i, LeafBytes(PlannedLeaf(s, q, TicketFor(q, i))));
  }

  lemma SponsorKey(s: System, h: History, q: Plan)
    requires Funded(s, h, q)
    ensures Places(h, q) && Coins(s, h, q)[q.Sponsor()].out.spk != s.spk
    ensures forall l :: l in h[q.at[q.Sponsor()].0].leaves ==>
              TapSpk(PlannedWorld(s, h, q, q.Sponsor()), LeafBytes(l)) != Some(Coins(s, h, q)[q.Sponsor()].out.spk)
  {
    hide LeafBytes, Deployed, ActionFunded, SponsorCoin, TapSpk;
    var i := q.Sponsor();
    forall l | l in h[q.at[i].0].leaves ensures TapSpk(PlannedWorld(s, h, q, i),
                                                       LeafBytes(l)) != Some(Coins(s, h, q)[i].out.spk) {
      TapApart(s, h, q, i, LeafBytes(l));
    }
  }

  lemma HeadKey(s: System, h: History, q: Plan)
    requires Sound(s, h, q)
    ensures s.Valid() && Places(h, q) && Coins(s, h, q)[0].out.spk == s.spk
  {
    hide LeafBytes, Deployed, HeadCoin, ActionFunded, SponsorCoin, SponsorFree, TapSpk;
  }

  lemma HeadSpend(s: System, h: History, q: Plan)
    requires Meant(s, h, q)
    ensures |PlannedSpends(s, h, q)| == q.Size()
    ensures var x := PlannedClaim(s, h, q);
            PlannedSpends(s, h, q)[0]
              == if q.action.Collecting? then ByCollection(CollectionStack(q.base, x, q.action.a, q.action.b))
                                         else BySettlement(SettlementStack(q.base, x))
  {
    hide PlannedClaim, CollectionStack, SettlementStack, Val, LeafBytes, PlannedLeaf, PayoutCovered;
  }

  lemma SponsorSpend(s: System, h: History, q: Plan)
    requires Meant(s, h, q)
    ensures |PlannedSpends(s, h, q)| == q.Size() && PlannedSpends(s, h, q)[q.Sponsor()] == Otherwise
  {
    hide PlannedClaim, CollectionStack, SettlementStack, Val, LeafBytes, PlannedLeaf, PayoutCovered;
  }

  lemma DepositSpend(s: System, h: History, q: Plan, i: nat)
    requires Meant(s, h, q) && q.action.Collecting? && (i == 1 || i == 2)
    ensures |PlannedSpends(s, h, q)| == 4
    ensures PlannedSpends(s, h, q)[i] ==
            ByLeaf(LeafBytes(PlannedLeaf(s, q, TicketFor(q, i))), [h[q.at[0].0].tx.Encode(), q.state, []])
  {
    hide PlannedClaim, CollectionStack, SettlementStack, Val, LeafBytes, PlannedLeaf, PayoutCovered;
  }

  lemma PlanFollows(s: System, h: History, q: Plan, i: nat)
    requires s.Valid() && Sound(s, h, q) && Laid(s, h, q) && ProofReady(s, h, q) && AllFormed(h) && i < q.Size()
    ensures var g := Grow(h, PlannedEntry(s, h, q));
            Ordinary(s, g, |h|) && |g[|h|].tx.inputs| == q.Size() && SpendFollowsRules(s, g, |h|, i)
  {
    hide Sound, ProofReady, Formed, Ordinary, LeafBytes, RunBytes, Val, Accepted, Deployed, TapSpk, ProgramRan;
    hide CollectionPrefix;
    hide SettlementPrefix, PlannedEntry, PlannedTx, PlannedSpends, PlannedClaim, PlannedWorld, WorldAt, SpentOutput;
    hide LeavesBehind;
    hide Coins, PlannedLeaf, CollectionStack, SettlementStack, GoodCoin, PayoutCovered;
    HeadKey(s, h, q);
    PlanWorld(s, h, q, i);
    PlanLeaves(s, h, q, i);
    PlanPlain(s, h, q);
    assert Grow(h, PlannedEntry(s, h, q))[|h|] == PlannedEntry(s, h, q);
    if i == q.Sponsor() {
      SponsorSpend(s, h, q);
      assert Funded(s, h, q) by { SoundFunded(s, h, q); }
      SponsorKey(s, h, q);
    } else if i == 0 {
      HeadSpend(s, h, q);
      if q.action.Collecting? {
        CollectionSpendPlanned(s, h, q);
      } else {
        SettlementSpendPlanned(s, h, q);
      }
    } else {
      DepositSpend(s, h, q, i);
      DepositSpendPlanned(s, h, q, i);
      DepositKey(s, h, q, i);
    }
  }

  lemma SoundFunded(s: System, h: History, q: Plan)
    requires Sound(s, h, q)
    ensures Funded(s, h, q) && FromHead(s, h, q)
  {
    hide Funded, FromHead;
  }

  // ---------- it may come next ----------

  /** The plan spends different outputs, none of them spent. */
  predicate Available(h: History, q: Plan)
    requires AllFormed(h) && |q.at| == q.Size()
  {
    && (forall i, j :: 0 <= i < j < q.Size() ==> q.at[i] != q.at[j])
    && forall i :: 0 <= i < q.Size() ==> Untouched(h, q.at[i])
  }

  lemma PlanPoint(s: System, h: History, q: Plan, i: nat)
    requires Laid(s, h, q) && i < q.Size()
    ensures var e := PlannedEntry(s, h, q); Formed(e) && |e.tx.inputs| == q.Size() && Point(e, i) == q.at[i]
  {
    hide CabooseSpk, Hash256, PlannedEntry, Val, GoodCoin, PlannedTx, Formed, PlannedSpends, PayoutCovered;
    PlanPlain(s, h, q);
    PlanInputs(s, h, q, i);
  }

  lemma PlanNew(s: System, h: History, q: Plan)
    requires Confirmed(s, h) && CollisionFree(s, h) && Laid(s, h, q) && AllFormed(h) && Available(h, q)
    ensures AllNew(s, h, q)
  {
    hide CollisionFree, Confirmed, Hash256, Val, GoodCoin, PlannedTx, Formed, PayoutCovered;
    PlanInputs(s, h, q, 0);
    forall k | 0 <= k < |h| ensures h[k].tx != PlannedTx(s, h, q) {
      SpenderIsNew(s, h, PlannedTx(s, h, q), q.at[0].0, 0, k);
    }
  }

  predicate AllNew(s: System, h: History, q: Plan)
    requires Places(h, q)
  {
    forall k :: 0 <= k < |h| ==> h[k].tx != PlannedTx(s, h, q)
  }

  /** The points are apart from each other and from everything spent. */
  lemma PlanPoints(s: System, h: History, q: Plan)
    requires Laid(s, h, q) && AllFormed(h) && Available(h, q)
    ensures var e := PlannedEntry(s, h, q);
            && Formed(e) && |e.tx.inputs| == q.Size()
            && (forall k, i, j ::
                  0 <= k < |h| && 0 <= i < |h[k].tx.inputs| && 0 <= j < |e.tx.inputs| && !h[k].coinbase ==>
                  Point(h[k], i) != Point(e, j))
            && (forall i, j :: 0 <= i < j < |e.tx.inputs| ==> Point(e, i) != Point(e, j))
  {
    hide Formed, Val, GoodCoin, PlannedTx, PlannedEntry, Point, Coins, PayoutCovered;
    var e := PlannedEntry(s, h, q);
    PlanPoint(s, h, q, 0);
    forall i | 0 <= i < q.Size() ensures Point(e, i) == q.at[i] {
      PlanPoint(s, h, q, i);
    }
    assert forall i :: 0 <= i < q.Size() ==> Untouched(h, q.at[i]);
  }

  lemma PlanMayFollow(s: System, h: History, q: Plan)
    requires s.Valid() && Laid(s, h, q) && Sound(s, h, q) && ProofReady(s, h, q) && AllFormed(h) && Available(h, q)
    requires AllNew(s, h, q)
    ensures MayFollow(s, h, PlannedEntry(s, h, q))
  {
    hide Sound, ProofReady, SpendFollowsRules, Ordinary, Formed, Val, GoodCoin, PlannedTx, PlannedEntry, Point, Coins;
    hide Deployed;
    hide Available, PlannedSpends, PayoutCovered;
    PlanResolves(s, h, q);
    PlanPlain(s, h, q);
    PlanPoints(s, h, q);
    var e := PlannedEntry(s, h, q);
    forall i | 0 <= i < q.Size() ensures SpendFollowsRules(s, Grow(h, e), |h|, i) {
      PlanFollows(s, h, q, i);
    }
    OrdinaryResolved(s, Grow(h, e), |h|);
  }

  lemma OrdinaryResolved(s: System, h: History, k: nat)
    requires Ordinary(s, h, k)
    ensures k < |h| && Formed(h[k]) && Resolved(s, h, k)
  {
  }

  /** A confirmed history without collisions and a plan for it that can be paid and proved. */
  ghost predicate Possible(s: System, h: History, q: Plan) {
    && Confirmed(s, h) && CollisionFree(s, h) && AllFormed(h) && Funded(s, h, q) && Places(h, q)
    && PayoutCovered(s, h, q)
    && ProofReady(s, h, q) && Available(h, q)
  }

  ghost predicate Grows(s: System, h: History, q: Plan) {
    Laid(s, h, q) && Confirmed(s, Grow(h, PlannedEntry(s, h, q)))
  }

  /** Any confirmed history grows by the host's collection or settlement of an unspent head: the genesis transaction's
      or a step's. */
  lemma StepConfirms(s: System, h: History, q: Plan)
    requires Possible(s, h, q) && FromHead(s, h, q)
    ensures Grows(s, h, q)
  {
    hide Confirmed, CollisionFree, Sound, ProofReady, MayFollow, GoodCoin, Val, PlannedTx, Available, PlannedEntry;
    hide Formed;
    hide Funded, FromHead, Places, AllNew, Coins, PayoutCovered;
    assert Sound(s, h, q) by { PossibleSound(s, h, q); }
    SoundLaid(s, h, q);
    HeadKey(s, h, q);
    PlanNew(s, h, q);
    PlanMayFollow(s, h, q);
    Extends(s, h, PlannedEntry(s, h, q));
  }

  lemma PossibleSound(s: System, h: History, q: Plan)
    requires Possible(s, h, q) && FromHead(s, h, q)
    ensures Sound(s, h, q)
  {
    hide Confirmed, CollisionFree, Funded, FromHead, ProofReady, Available;
  }

  lemma StepStays(s: System, h: History, e: Entry, k: nat)
    requires IsStep(s, h, k)
    ensures IsStep(s, Grow(h, e), k)
  {
    hide SpentOutput, Ordinary;
    assert Ordinary(s, h, k) && k < |h| by { OrdinaryBelow(s, h, k); }
    EarlierSame(s, h, e, k);
    assert Grow(h, e)[k] == h[k];
    assert SpentOutputs(s, h, k)[0] == SpentOutputs(s, Grow(h, e), k)[0];
  }

  lemma OrdinaryBelow(s: System, h: History, k: nat)
    requires IsStep(s, h, k)
    ensures Ordinary(s, h, k) && k < |h| && |h[k].tx.inputs| > 0
  {
  }

  /** Heads stay heads in a longer history. */
  lemma {:induction false} HeadStays(s: System, h: History, e: Entry, g: bytes, k: nat, d: nat)
    requires HeadAfter(s, h, g, k, d)
    ensures HeadAfter(s, Grow(h, e), g, k, d)
    decreases d
  {
    hide IsStep, ClaimOf, Hash256, Formed;
    assert k < |h| && Grow(h, e)[k] == h[k];
    if d > 0 {
      StepStays(s, h, e, k);
      HeadStays(s, h, e, g, ParentOf(h, k), d - 1);
    }
  }

  lemma HeadPlanned(s: System, h: History, q: Plan, g: bytes, k: nat, d: nat)
    requires Confirmed(s, h) && CollisionFree(s, h) && d > 0 && HeadAfter(s, h, g, k, d) && Funded(s, h, q)
    requires q.at[0] == (k, 0) && q.ancestor == ParentOf(h, k) && q.id == g && q.state == ClaimOf(h[k]).newState
    ensures FromHead(s, h, q) && |h[k].tx.Encode()| != 137
  {
    hide Confirmed, CollisionFree, Funded, HeadCoin, ClaimOf, Hash256, CabooseSpk, ActiveState;
    assert Places(h, q) by { FundedPlaces(s, h, q); }
    ReachableHead(s, h, g, k, d);
    StepIsHead(s, h, k);
    var p := h[k].tx;
    if p.Plain(4, 3) {
      PlainLengths(p, 4, 3);
    } else {
      PlainLengths(p, 2, 4);
    }
  }

  lemma FundedPlaces(s: System, h: History, q: Plan)
    requires Funded(s, h, q)
    ensures Places(h, q)
  {
  }

  lemma PlanClaims(s: System, h: History, q: Plan)
    requires Laid(s, h, q)
    ensures ClaimOf(PlannedEntry(s, h, q)) == PlannedClaim(s, h, q)
    ensures PlannedClaim(s, h, q).bridgeId == q.id && PlannedClaim(s, h, q).parent == h[q.at[0].0].tx.Encode()
  {
    hide PlannedTx, Val, LeafBytes, PlannedLeaf, GoodCoin, PlannedStatement, PayoutCovered, CollectionClaim;
    hide SettlementClaim;
    var x := PlannedClaim(s, h, q);
    match q.action
    case Collecting(a, b) => StackClaims(q.base, x, a, b);
    case Settling(_, _, _, _) => StackClaims(q.base, x, Ticket([], []), Ticket([], []));
  }

  /** The plan spends the head that bridge `g` reached with step `k`, its `d`-th. */
  predicate Continues(s: System, h: History, q: Plan, g: bytes, k: nat, d: nat) {
    && d > 0 && HeadAfter(s, h, g, k, d) && |q.at| > 0
    && q.at[0] == (k, 0) && q.ancestor == ParentOf(h, k) && q.id == g && q.state == ClaimOf(h[k]).newState
  }

  ghost predicate Advances(s: System, h: History, q: Plan, d: nat) {
    Grows(s, h, q) && HeadAfter(s, Grow(h, PlannedEntry(s, h, q)), q.id, |h|, d + 1)
  }

  lemma NewStep(s: System, h: History, q: Plan)
    requires Laid(s, h, q) && AllFormed(h) && FromHead(s, h, q)
    ensures var f := Grow(h, PlannedEntry(s, h, q)); IsStep(s, f, |h|) && IdentityOf(f, |h|) == q.id && Formed(f[|h|])
    ensures var f := Grow(h, PlannedEntry(s, h, q));
            ParentOf(f, |h|) == q.at[0].0 && f[|h|].tx.inputs[0].prevout.vout == 0 && !f[|h|].coinbase
    ensures var f := Grow(h, PlannedEntry(s, h, q)); ClaimOf(f[|h|]).parent == h[q.at[0].0].tx.Encode()
  {
    hide PlannedEntry, ClaimOf, GoodCoin, Val, PlannedTx, Ordinary, SpentOutput, PlannedClaim, Formed, HeadCoin;
    hide PayoutCovered;
    hide PlannedSpends;
    PlanWorld(s, h, q, 0);
    PlanPoint(s, h, q, 0);
    PlanInputs(s, h, q, 0);
    PlanPlain(s, h, q);
    PlanClaims(s, h, q);
    assert Grow(h, PlannedEntry(s, h, q))[|h|] == PlannedEntry(s, h, q);
  }

  /** Every bridge can go on: from any unspent head a confirmed history has reached, the host's collection or settlement
      confirms, and the bridge has one head more. */
  lemma HeadAdvances(s: System, h: History, q: Plan, g: bytes, k: nat, d: nat)
    requires Possible(s, h, q) && Continues(s, h, q, g, k, d)
    ensures Advances(s, h, q, d)
  {
    hide Confirmed, CollisionFree, Funded, ProofReady, FromHead, Available, Formed, PlannedEntry, ClaimOf, GoodCoin;
    hide Val, PlannedTx;
    hide IsStep, Sound, Places, PayoutCovered;
    HeadPlanned(s, h, q, g, k, d);
    StepConfirms(s, h, q);
    assert Laid(s, h, q);
    NewStep(s, h, q);
    HeadStays(s, h, PlannedEntry(s, h, q), g, k, d);
  }
}
