// Where value goes: conservation in every step, deposits from their leaf to the credited account, and the absence of
// replay.
module Flows {
  import opened Bytes
  import opened Transactions
  import opened Statements
  import opened Script
  import opened TxContext
  import opened Linearization
  import opened Deposit
  import opened DepositLeaf
  import opened BridgeHead
  import opened BridgeOutputs
  import opened BridgeDeposits
  import opened BridgeStatement
  import opened BridgeDigest
  import opened BridgePrograms
  import opened BridgeRuns
  import opened Accounts
  import opened Transitions
  import opened Ledger
  import opened Attested
  import opened Lineage
  import opened Solvency

  // ---------- collections ----------

  function CollectionInput(s: System, h: History, k: nat): Collection
    requires k < |h| && Proved(s, h[k]) && h[k].proof.value.Collect?
  {
    h[k].proof.value.collection
  }

  lemma AttestedKind(s: System, h: History, k: nat)
    requires Confirmed(s, h) && CollisionFree(s, h) && IsStep(s, h, k)
    ensures s.t.Valid() && Proved(s, h[k]) && (h[k].spends[0].ByCollection? || h[k].spends[0].BySettlement?)
    ensures h[k].spends[0].ByCollection? ==> CollectionRan(s, h, k, 0) && h[k].proof.value.Collect?
    ensures h[k].spends[0].BySettlement? ==> SettlementRan(s, h, k, 0) && h[k].proof.value.Settle?
  {
    hide Confirmed, CollisionFree, CollectionWitness, SettlementWitness, Attests, SpentOutput, SpentOutputs, CabooseIs;
    hide ClaimOf;
    hide ParentAccepted, HeaderAgrees, StatementOf, Deployed, CollectionSpec, SettlementSpec;
    ConfirmedValid(s, h);
    ProgramSpendRan(s, h, k, 0);
    ProgramSpendStepped(s, h, k, 0);
    KindOf(s.crypto, h[k].proof.value);
  }

  function TotalAmount(o: seq<TxOut>): nat { if o == [] then 0 else TotalAmount(o[..|o| - 1]) + o[|o| - 1].amount }

  lemma TotalTwo(a: TxOut, b: TxOut)
    ensures TotalAmount([a, b]) == a.amount + b.amount
  {
    assert [a, b][..1] == [a] && [a][..0] == [];
    assert TotalAmount([a]) == a.amount;
  }

  lemma TotalThree(a: TxOut, b: TxOut, c: TxOut)
    ensures TotalAmount([a, b, c]) == a.amount + b.amount + c.amount
  {
    assert [a, b, c][..2] == [a, b];
    TotalTwo(a, b);
  }

  lemma TotalFour(a: TxOut, b: TxOut, c: TxOut, d: TxOut)
    ensures TotalAmount([a, b, c, d]) == a.amount + b.amount + c.amount + d.amount
  {
    assert [a, b, c, d][..3] == [a, b, c];
    TotalThree(a, b, c);
  }

  /** The attested deposits are the spent outputs 1 and 2, for recipients `a` and `b`, and the successor holds all. */
  predicate DepositsMatch(i: Collection, c: Context, a: nat, b: nat)
    requires i.WellFormed()
  {
    && |c.spent| == |c.tx.inputs| == 4 && c.tx.outputs != []
    && i.deposits[0] == DepositInput(c.tx.inputs[1].prevout, c.spent[1].amount, a)
    && i.deposits[1] == DepositInput(c.tx.inputs[2].prevout, c.spent[2].amount, b)
    && i.oldBacking == c.spent[0].amount
    && c.tx.outputs[0].amount == c.spent[0].amount + c.spent[1].amount + c.spent[2].amount
  }

  lemma DemandFields(t: Terms, c: Context, x: Claim, a: bytes, b: bytes)
    requires |t.keys| == 3 && |c.spent| == |c.tx.inputs| == 4
    ensures var u := CollectionStatement(t, c, x, a, b);
            && u.a.outpoint == c.tx.inputs[1].prevout && u.a.value == c.spent[1].amount && u.a.recipient == Val(a)
            && u.b.outpoint == c.tx.inputs[2].prevout && u.b.value == c.spent[2].amount && u.b.recipient == Val(b)
            && u.h.bridgeId == x.bridgeId && u.h.oldBacking == c.spent[0].amount
  {
    hide Val, Kept, RootIn;
  }

  lemma InputFields(c: Crypto, i: Collection)
    requires i.WellFormed() && CollectionSpec(c, i).Ok?
    ensures var u := StatementOf(c, Collect(i));
            && u.CollectTwo? && u.h.bridgeId == i.bridgeId && u.h.oldBacking == i.oldBacking
            && u.a == RecordOf(i.oldState, i.deposits[0]) && u.b == RecordOf(i.oldState, i.deposits[1])
            && u.h.newBacking == i.oldBacking + i.deposits[0].value + i.deposits[1].value
            && i.deposits[0].recipient < 3 && i.deposits[1].recipient < 3
  {
    hide RootOf, CollectionSpec;
    CollectionGuarantees(c, i);
  }

  /** The proof and the transaction agree on both deposits, and the new backing never wrapped. */
  lemma CollectionAgrees(s: System, h: History, k: nat)
    requires Confirmed(s, h) && CollisionFree(s, h) && IsStep(s, h, k) && h[k].spends[0].ByCollection?
    ensures Proved(s, h[k]) && h[k].proof.value.Collect? && |h[k].spends[0].stack| >= 10
    ensures var i, st := CollectionInput(s, h, k), h[k].spends[0].stack;
            && i.WellFormed() && i.bridgeId == ClaimOf(h[k]).bridgeId
            && DepositsMatch(i, ContextAt(s, h, k, 0), Val(TicketA(st).recipient), Val(TicketB(st).recipient))
            && CreditsExactly(i, AccountsAfter(s, h, k))
  {
    hide Confirmed, CollisionFree, ClaimOf, CollectionRan, RootOf, SpentOutput, SpentOutputs, CollectionSpec, Proved;
    hide StatementOf;
    hide Val, Deployed, CollectionStatement, CollectionAccepted, CreditsExactly, CabooseIs, StatementAgrees, Kept;
    hide ParentAccepted;
    AttestedKind(s, h, k);
    CollectionRead(s, h, k);
    CollectionMeets(s, h, k);
    CollectionCaboose(s, h, k);
    var i, st, c := CollectionInput(s, h, k), h[k].spends[0].stack, ContextAt(s, h, k, 0);
    CollectionCredits(s, h, k);
    DemandFields(s.t, c, ClaimOf(h[k]), TicketA(st).recipient, TicketB(st).recipient);
    InputFields(s.crypto, i);
    StepParts(s, h, k);
    assert h[k].tx.outputs != [] by { CabooseParts(s, h[k]); }
  }

  lemma CollectionCredits(s: System, h: History, k: nat)
    requires k < |h| && Proved(s, h[k]) && h[k].proof.value.Collect?
    ensures var i := CollectionInput(s, h, k);
            i.WellFormed() && CreditsExactly(i, AccountsAfter(s, h, k)) && CollectionSpec(s.crypto, i).Ok?
  {
    hide CollectionSpec, CreditsExactly, CollectionStatementOf, RootOf;
    CollectionGuarantees(s.crypto, CollectionInput(s, h, k));
  }

  /** A collection moves both deposits in full to the successor, and takes the fee and the caboose from the sponsor
      alone. */
  lemma CollectionConserves(s: System, h: History, k: nat)
    requires Confirmed(s, h) && CollisionFree(s, h) && IsStep(s, h, k) && h[k].spends[0].ByCollection?
    ensures CollectionSums(s, SpentOutputs(s, h, k), h[k].tx.outputs)
  {
    hide Confirmed, CollisionFree, ClaimOf, CollectionRan, Proved, SpentOutput, SpentOutputs, CreditsExactly;
    hide TotalAmount, Deployed;
    hide Val, CollectionSpec;
    AttestedKind(s, h, k);
    CollectionAgrees(s, h, k);
    CollectionSponsor(s, h, k);
    var v, o := SpentOutputs(s, h, k), h[k].tx.outputs;
    assert v == [v[0], v[1], v[2], v[3]] && o == [o[0], o[1], o[2]];
    TotalFour(v[0], v[1], v[2], v[3]);
    TotalThree(o[0], o[1], o[2]);
  }

  /** The spent outputs `v` and the new outputs `o` of a collection. */
  predicate CollectionSums(s: System, v: seq<TxOut>, o: seq<TxOut>) {
    && |v| == 4 && |o| == 3
    && o[0] == TxOut(v[0].amount + v[1].amount + v[2].amount, s.spk)
    && v[3].amount >= 10_330 && v[3].spk == s.t.sponsor
    && o[1] == TxOut(v[3].amount - 10_330, s.t.sponsor) && o[2].amount == 330
    && TotalAmount(v) == TotalAmount(o) + 10_000
  }

  lemma CollectionSponsor(s: System, h: History, k: nat)
    requires s.t.Valid() && IsStep(s, h, k) && CollectionRan(s, h, k, 0)
    ensures var v, o := SpentOutputs(s, h, k), h[k].tx.outputs;
            && |v| == 4 && |o| == 3 && v[3].amount >= SPONSORED && v[3].spk == s.t.sponsor && o[0].spk == s.spk
            && o[1] == TxOut(v[3].amount - SPONSORED, s.t.sponsor) && o[2].amount == CABOOSE_VALUE
  {
    hide ClaimOf, CabooseSpk, Kept, Deposited, CollectionStatement, ParentAccepted, InputIs, PlainContext, SpentOutput;
    CollectionRead(s, h, k);
    SpentFirst(s, h, k);
    CollectionOpenedOutputs(s.t, WorldAt(s, h, k, 0), ClaimOf(h[k]));
  }

  lemma CollectionOpenedOutputs(t: Terms, w: World, x: Claim)
    requires CollectionOpened(t, w, x)
    ensures var v, o := w.ctx.spent, w.ctx.tx.outputs;
            && |v| == 4 && |o| == 3 && v[3].amount >= SPONSORED && v[3].spk == t.sponsor && o[0].spk == SpkOf(w.ctx)
            && o[1] == TxOut(v[3].amount - SPONSORED, t.sponsor) && o[2].amount == CABOOSE_VALUE
  {
    hide PlainContext, CabooseSpk;
  }

  // ---------- settlements ----------

  function SettlementInput(s: System, h: History, k: nat): Settlement
    requires k < |h| && Proved(s, h[k]) && h[k].proof.value.Settle?
  {
    h[k].proof.value.settlement
  }

  lemma PayoutFields(c: Crypto, i: Settlement)
    requires i.WellFormed() && SettlementSpec(c, i).Ok?
    ensures var u := StatementOf(c, Settle(i));
            && u.TransferWithdraw? && u.payout == TxOut(i.withdrawalAmount, i.destination) && u.h.bridgeId == i.bridgeId
  {
    hide RootOf, SettlementSpec;
    SettlementGuarantees(c, i);
  }

  lemma SettlementOpenedOutputs(t: Terms, w: World, x: Claim)
    requires SettlementOpened(t, w, x)
    ensures var v, o, p := w.ctx.spent, w.ctx.tx.outputs, Payout(x.values);
            && |v| == 2 && |o| == 4 && p.amount <= v[0].amount && o[0] == TxOut(v[0].amount - p.amount, SpkOf(w.ctx))
            && o[1] == p
            && v[1].amount >= SPONSORED && v[1].spk == t.sponsor
            && o[2] == TxOut(v[1].amount - SPONSORED, t.sponsor) && o[3].amount == CABOOSE_VALUE
  {
    hide PlainContext, CabooseSpk, Payout;
  }

  lemma DemandedPayout(c: Context, x: Claim)
    requires |x.values| == 320
    ensures SettlementStatement(c, x).payout == Payout(x.values)
  {
  }

  /** The outputs of a settlement, with the payout its proof authorizes. */
  lemma SettlementPays(s: System, h: History, k: nat)
    requires Confirmed(s, h) && CollisionFree(s, h) && IsStep(s, h, k) && h[k].spends[0].BySettlement?
    ensures Proved(s, h[k]) && h[k].proof.value.Settle? && s.t.Valid() && SettlementRan(s, h, k, 0)
    ensures |ClaimOf(h[k]).values| == 320 && SettlementOpened(s.t, WorldAt(s, h, k, 0), ClaimOf(h[k]))
    ensures var i := SettlementInput(s, h, k); Payout(ClaimOf(h[k]).values) == TxOut(i.withdrawalAmount, i.destination)
  {
    hide Confirmed, CollisionFree, ClaimOf, SettlementRan, SpentOutput, SpentOutputs, Proved, StatementOf, RootOf;
    hide SettlementSpec;
    hide SettlementOpened, Payout, SettlementStatement, ParentAccepted, InputIs, Deployed;
    AttestedKind(s, h, k);
    SettlementRead(s, h, k);
    SettlementMeets(s, h, k);
    DemandedPayout(ContextAt(s, h, k, 0), ClaimOf(h[k]));
    assert SettlementSpec(s.crypto, SettlementInput(s, h, k)).Ok? by { SettledOk(s, h, k); }
    PayoutFields(s.crypto, SettlementInput(s, h, k));
  }

  lemma SettledOk(s: System, h: History, k: nat)
    requires k < |h| && Proved(s, h[k]) && h[k].proof.value.Settle?
    ensures SettlementSpec(s.crypto, SettlementInput(s, h, k)).Ok? && SettlementInput(s, h, k).WellFormed()
  {
    hide SettlementSpec;
  }

  /** A settlement pays out exactly the authorized withdrawal from the head, and takes the fee and the caboose from the
      sponsor alone. */
  lemma SettlementConserves(s: System, h: History, k: nat)
    requires Confirmed(s, h) && CollisionFree(s, h) && IsStep(s, h, k) && h[k].spends[0].BySettlement?
    ensures Proved(s, h[k]) && h[k].proof.value.Settle?
    ensures var v, o, i := SpentOutputs(s, h, k), h[k].tx.outputs, SettlementInput(s, h, k);
            && |v| == 2 && |o| == 4 && i.withdrawalAmount <= v[0].amount
            && o[0] == TxOut(v[0].amount - i.withdrawalAmount, s.spk)
            && o[1] == TxOut(i.withdrawalAmount, i.destination)
            && v[1].amount >= 10_330 && v[1].spk == s.t.sponsor
            && o[2] == TxOut(v[1].amount - 10_330, s.t.sponsor) && o[3].amount == 330
            && TotalAmount(v) == TotalAmount(o) + 10_000
  {
    hide Confirmed, CollisionFree, ClaimOf, SettlementRan, SettlementOpened, Proved, SpentOutput, SpentOutputs;
    hide TotalAmount, Payout;
    hide Deployed;
    SettlementPays(s, h, k);
    SettlementOpenedOutputs(s.t, WorldAt(s, h, k, 0), ClaimOf(h[k]));
    SpentFirst(s, h, k);
    var v, o := SpentOutputs(s, h, k), h[k].tx.outputs;
    assert v == [v[0], v[1]] && o == [o[0], o[1], o[2], o[3]];
    TotalTwo(v[0], v[1]);
    TotalFour(o[0], o[1], o[2], o[3]);
  }

  // ---------- over a whole chain ----------

  /** Where the money goes in every settlement of a chain: from the accounts the step before ended with, sender,
      recipient and fee account change by exactly the attested transfer and withdrawal. */
  lemma SettlementMoves(s: System, h: History, g: bytes, k: nat, d: nat)
    requires Confirmed(s, h) && CollisionFree(s, h) && d > 0 && HeadAfter(s, h, g, k, d) && h[k].spends[0].BySettlement?
    ensures Proved(s, h[k]) && h[k].proof.value.Settle? && SettlementInput(s, h, k).WellFormed()
    ensures MovesExactly(SettlementInput(s, h, k), AccountsAfter(s, h, k)) && s.t.Valid()
    ensures d == 1 ==> SettlementInput(s, h, k).oldState == EmptyAccounts(s.t.keys)
    ensures d > 1 ==> && Proved(s, h[ParentOf(h, k)])
                      && SettlementInput(s, h, k).oldState == AccountsAfter(s, h, ParentOf(h, k))
  {
    hide Confirmed, CollisionFree, ClaimOf, Proved, SpendsProgram, SettlementSpec, RootOf, Hash256;
    HeadBefore(s, h, g, k, d);
    AttestedKind(s, h, k);
    RunKeepsAccounts(s, h, g, k, d);
    SettledOk(s, h, k);
    SettledMoves(s, h, k);
  }

  lemma SettledMoves(s: System, h: History, k: nat)
    requires k < |h| && Proved(s, h[k]) && h[k].proof.value.Settle?
    ensures SettlementInput(s, h, k).WellFormed() && MovesExactly(SettlementInput(s, h, k), AccountsAfter(s, h, k))
    ensures Before(s, h, k) == SettlementInput(s, h, k).oldState
  {
    hide SettlementSpec, RootOf, SettlementStatementOf, MovesExactly;
    SettlementGuarantees(s.crypto, SettlementInput(s, h, k));
  }

  /** The amounts of the deposits a step collects, and the amount it pays out. */
  function DepositsOf(s: System, h: History, k: nat): nat {
    if Ordinary(s, h, k) && |h[k].tx.inputs| == 4 && h[k].spends[0].ByCollection?
    then SpentOutput(s, h, k, 1).amount + SpentOutput(s, h, k, 2).amount
    else 0
  }

  function PayoutOf(s: System, h: History, k: nat): nat {
    if Ordinary(s, h, k) && |h[k].tx.outputs| == 4 && h[k].spends[0].BySettlement? then h[k].tx.outputs[1].amount else 0
  }

  /** The same over the last `d` steps up to entry `k`. */
  function AllDeposits(s: System, h: History, k: nat, d: nat): nat
    decreases d
  {
    if d == 0 || k >= |h| || !Formed(h[k]) then 0 else AllDeposits(s, h, ParentOf(h, k), d - 1) + DepositsOf(s, h, k)
  }

  function AllPayouts(s: System, h: History, k: nat, d: nat): nat
    decreases d
  {
    if d == 0 || k >= |h| || !Formed(h[k]) then 0 else AllPayouts(s, h, ParentOf(h, k), d - 1) + PayoutOf(s, h, k)
  }

  /** A step changes the head by its deposits and its payout, and by nothing else. */
  lemma StepBalances(s: System, h: History, k: nat)
    requires Confirmed(s, h) && CollisionFree(s, h) && IsStep(s, h, k)
    ensures h[k].tx.outputs != []
    ensures h[k].tx.outputs[0].amount + PayoutOf(s, h, k) == SpentOutput(s, h, k, 0).amount + DepositsOf(s, h, k)
  {
    hide Confirmed, CollisionFree, ClaimOf, CollectionRan, SettlementRan, Proved, SpentOutput, TotalAmount;
    AttestedKind(s, h, k);
    if h[k].spends[0].ByCollection? {
      CollectionConserves(s, h, k);
    } else {
      SettlementConserves(s, h, k);
    }
  }

  /** The output a later step spends is the head before it. */
  lemma SpendsHead(s: System, h: History, g: bytes, k: nat, d: nat)
    requires Confirmed(s, h) && CollisionFree(s, h) && d > 0 && HeadAfter(s, h, g, k, d)
    ensures IsStep(s, h, k) && h[ParentOf(h, k)].tx.outputs != []
    ensures SpentOutput(s, h, k, 0) == h[ParentOf(h, k)].tx.outputs[0]
  {
    hide Confirmed, CollisionFree, ClaimOf, Hash256;
    assert Resolves(s, h, k, 0);
  }

  /** After any number of confirmed steps the head holds the reserve and every deposit ever collected, less every payout
      ever made. */
  lemma {:induction false} ChainConserves(s: System, h: History, g: bytes, k: nat, d: nat)
    requires Confirmed(s, h) && CollisionFree(s, h) && d > 0 && HeadAfter(s, h, g, k, d)
    ensures k < |h| && h[k].tx.outputs != []
    ensures h[k].tx.outputs[0].amount + AllPayouts(s, h, k, d) == 1_000 + AllDeposits(s, h, k, d)
    decreases d
  {
    hide Confirmed, CollisionFree, IsStep, SpentOutput, DepositsOf, PayoutOf, ClaimOf, Hash256;
    HeadBefore(s, h, g, k, d);
    SpendsHead(s, h, g, k, d);
    StepBalances(s, h, k);
    if d == 1 {
      ReserveForced(s, h, g, k);
    } else {
      ChainConserves(s, h, g, ParentOf(h, k), d - 1);
    }
  }

  /** What the accounts of the head hold together is every deposit ever credited, less every payout. */
  lemma BalancesConserve(s: System, h: History, g: bytes, k: nat, d: nat)
    requires Confirmed(s, h) && CollisionFree(s, h) && d > 0 && HeadAfter(s, h, g, k, d)
    ensures Proved(s, h[k]) && |AccountsAfter(s, h, k)| == 3
    ensures var a := AccountsAfter(s, h, k);
            a[0].balance + a[1].balance + a[2].balance + AllPayouts(s, h, k, d) == AllDeposits(s, h, k, d)
  {
    hide Confirmed, CollisionFree, HeadAfter, AllDeposits, AllPayouts, Proved, AccountsAfter, CabooseSpk;
    Solvent(s, h, g, k, d);
    ChainConserves(s, h, g, k, d);
  }
}
