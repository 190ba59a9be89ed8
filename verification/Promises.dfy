// Where the documentation promises more than the code does: an input at which the promise fails, and exactly when it
// holds.
module Promises {
  import opened Bytes
  import opened Transactions
  import opened Script
  import opened TxContext
  import opened Linearization
  import opened Deposit
  import opened BridgeHead
  import opened BridgeOutputs
  import opened BridgePrograms
  import opened BridgeRuns
  import opened Accounts
  import opened Transitions
  import opened Ledger
  import opened Attested
  import opened Lineage
  import opened Solvency
  import opened Flows
  import opened Completeness
  import opened Extension
  import opened Progress

  // ---------- one successor ----------

  /** Output 0 is the only one that pays the program. */
  predicate SoleSuccessor(s: System, tx: Tx) {
    && tx.outputs != [] && tx.outputs[0].spk == s.spk
    && forall j :: 0 < j < |tx.outputs| ==> tx.outputs[j].spk != s.spk
  }

  lemma SponsorIsNot(s: System, h: History, k: nat, i: nat)
    requires Confirmed(s, h) && Ordinary(s, h, k) && 0 < i < |h[k].tx.inputs|
    ensures SpentOutput(s, h, k, i).spk != s.spk
  {
    hide Confirmed, SpentOutput, Ordinary;
    if SpentOutput(s, h, k, i).spk == s.spk {
      ProgramSpendFirst(s, h, k, i);
    }
  }

  lemma CabooseIsNot(s: System, h: History, state: bytes)
    requires Confirmed(s, h)
    ensures CabooseSpk(s.t.sha, state) != s.spk
  {
    hide Sha, CabooseScript;
    ConfirmedValid(s, h);
    assert CabooseSpk(s.t.sha, state)[0] == 0x00;
  }

  lemma CollectionSole(s: System, h: History, k: nat)
    requires Confirmed(s, h) && CollisionFree(s, h) && IsStep(s, h, k) && h[k].spends[0].ByCollection?
    ensures SoleSuccessor(s, h[k].tx)
  {
    hide Confirmed, CollisionFree, SpentOutput, CabooseSpk, TotalAmount, ClaimOf, ActiveState, Ordinary;
    OrdinaryBelow(s, h, k);
    CollectionConserves(s, h, k);
    StepIsHead(s, h, k);
    CabooseIsNot(s, h, ClaimOf(h[k]).newState);
    SponsorIsNot(s, h, k, 3);
    assert SpentOutputs(s, h, k)[3] == SpentOutput(s, h, k, 3);
  }

  lemma SettlementSole(s: System, h: History, k: nat)
    requires Confirmed(s, h) && CollisionFree(s, h) && IsStep(s, h, k) && h[k].spends[0].BySettlement?
    ensures Proved(s, h[k]) && h[k].proof.value.Settle?
    ensures SoleSuccessor(s, h[k].tx) <==> SettlementInput(s, h, k).destination != s.spk
  {
    hide Confirmed, CollisionFree, SpentOutput, CabooseSpk, TotalAmount, ClaimOf, ActiveState, Ordinary, Proved;
    OrdinaryBelow(s, h, k);
    SettlementConserves(s, h, k);
    StepIsHead(s, h, k);
    CabooseIsNot(s, h, ClaimOf(h[k]).newState);
    SponsorIsNot(s, h, k, 1);
    assert SpentOutputs(s, h, k)[1] == SpentOutput(s, h, k, 1);
    var o := h[k].tx.outputs;
    assert o[1].spk == SettlementInput(s, h, k).destination && o[2].spk != s.spk && o[3].spk != s.spk;
  }

  /** A collection, or a settlement attested for another destination than the program's script. */
  predicate PaysElsewhere(s: System, e: Entry) {
    && e.spends != [] && Proved(s, e)
    && match e.proof.value case Collect(_) => e.spends[0].ByCollection? case Settle(i) => i.destination != s.spk
  }

  /** A confirmed step leaves one output with the program's script exactly when it is a collection, or a settlement to
      another destination than that script. */
  lemma SoleSuccessorExact(s: System, h: History, k: nat)
    requires Confirmed(s, h) && CollisionFree(s, h) && IsStep(s, h, k)
    ensures k < |h| && (SoleSuccessor(s, h[k].tx) <==> PaysElsewhere(s, h[k]))
  {
    hide Confirmed, CollisionFree, SpentOutput, Ordinary, Proved, SoleSuccessor, CollectionRan, SettlementRan;
    OrdinaryBelow(s, h, k);
    AttestedKind(s, h, k);
    StepSpends(s, h, k);
    if h[k].spends[0].ByCollection? {
      CollectionSole(s, h, k);
    } else {
      SettlementSole(s, h, k);
    }
  }

  lemma StepSpends(s: System, h: History, k: nat)
    requires IsStep(s, h, k)
    ensures k < |h| && h[k].spends != []
  {
  }

  /** The relation takes the program's script as a destination wherever it takes another, given the signature for it. */
  lemma ProgramDestination(s: System, i: Settlement)
    requires s.Valid() && i.WellFormed() && SettlementSpec(s.crypto, i).Ok?
    ensures var j := i.(destination := s.spk);
            j.WellFormed() && (SettlementSpec(s.crypto, j).Ok? <==> WithdrawalSigned(s.crypto, j))
  {
    hide Deployed, SettlementSpec, GoodKeys, WithdrawalBytes, ScopedMessage;
    var j := i.(destination := s.spk);
    SettlementExact(s.crypto, i);
    SettlementExact(s.crypto, j);
    assert TransferSigned(s.crypto, i) == TransferSigned(s.crypto, j)
        && ScopedSigned(s.crypto, i) == ScopedSigned(s.crypto, j);
  }

  /** From every unspent head: the host's settlement that pays out to the program's own script confirms, and two of its
      outputs pay the program. */
  lemma SuccessorShared(s: System, h: History, q: Plan)
    requires Possible(s, h, q) && FromHead(s, h, q) && q.action.Settling? && q.action.payout.spk == s.spk
    ensures Grows(s, h, q)
    ensures var tx := PlannedEntry(s, h, q).tx; tx.outputs[0].spk == s.spk == tx.outputs[1].spk && !SoleSuccessor(s, tx)
  {
    hide Possible, Confirmed, HeadCoin, CabooseSpk, Hash256, GoodCoin, PlannedClaim, ActiveState;
    StepConfirms(s, h, q);
    var o := PlannedTx(s, h, q).outputs;
    assert o[0].spk == s.spk && o[1] == q.action.payout;
  }

  /** No later output with the program's script is ever spent, so such a payout is out of the chain's reach for good. */
  lemma OnlyFirstOutputSpent(s: System, h: History, k: nat, i: nat)
    requires Confirmed(s, h) && CollisionFree(s, h) && SpendsProgram(s, h, k, i)
    ensures i == 0 && h[k].tx.inputs[0].prevout.vout == 0
  {
    hide Confirmed, CollisionFree, SpentOutput, Ordinary;
    ProgramSpendFirst(s, h, k, i);
    ParentIs(s, h, k);
  }

  // ---------- the money range ----------

  const MAX_MONEY: nat := 2_100_000_000_000_000

  predicate MoneyRange(s: seq<Account>, backing: nat) {
    && backing <= MAX_MONEY && forall i :: 0 <= i < |s| ==> s[i].balance <= MAX_MONEY
  }

  /** An accepted collection stays in the money range exactly when the backing and both deposits together do. */
  lemma CollectionMoneyExact(c: Crypto, i: Collection)
    requires i.WellFormed() && CollectionSpec(c, i).Ok?
    ensures var t := CollectionSpec(c, i).value;
            MoneyRange(t.newState, t.newBacking) <==>
            i.oldBacking + i.deposits[0].value + i.deposits[1].value <= MAX_MONEY
  {
    hide CollectionSpec, RootOf, CollectionStatementOf;
    CollectionGuarantees(c, i);
  }

  /** A settlement never leaves the range. */
  lemma SettlementMoneyKept(c: Crypto, i: Settlement)
    requires i.WellFormed() && SettlementSpec(c, i).Ok? && i.oldBacking <= MAX_MONEY
    ensures var t := SettlementSpec(c, i).value; MoneyRange(t.newState, t.newBacking)
  {
    hide SettlementSpec, RootOf, SettlementStatementOf;
    SettlementGuarantees(c, i);
  }

  function ExcessiveCollection(id: bytes, keys: seq<bytes>): Collection
    requires |keys| == 3
  {
    Collection(id, OutPoint(Zeros(32), 0), EmptyAccounts(keys), RESERVE,
               [DepositInput(OutPoint(Zeros(32), 0), MAX_MONEY, 0), DepositInput(OutPoint(Zeros(32), 1), 1, 0)])
  }

  /** Two deposits into an empty bridge that the relation accepts beyond the money range. */
  lemma MoneyRangeLeft(c: Crypto, id: bytes, keys: seq<bytes>)
    requires |id| == 32 && |keys| == 3 && (forall k :: 0 <= k < 3 ==> |keys[k]| == 32)
             && GoodKeys(c, EmptyAccounts(keys))
    ensures var i := ExcessiveCollection(id, keys);
            && i.WellFormed() && CollectionSpec(c, i).Ok? && MoneyRange(i.oldState, i.oldBacking)
            && !MoneyRange(CollectionSpec(c, i).value.newState, CollectionSpec(c, i).value.newBacking)
  {
    hide CollectionSpec, GoodKeys;
    var i := ExcessiveCollection(id, keys);
    assert i.WellFormed();
    var a, b := i.deposits[0].outpoint.Encode(), i.deposits[1].outpoint.Encode();
    FirstBelowSecond(a, b);
    CollectionExact(c, i);
    CollectionMoneyExact(c, i);
  }

  lemma FirstBelowSecond(a: bytes, b: bytes)
    requires a == OutPoint(Zeros(32), 0).Encode() && b == OutPoint(Zeros(32), 1).Encode()
    ensures LexLess(a, b)
  {
    assert a == Zeros(32) + [0, 0, 0, 0] by { assert LE(0, 4) == [0, 0, 0, 0] by { LEFour(0); } }
    assert b == Zeros(32) + [1, 0, 0, 0] by { assert LE(1, 4) == [1, 0, 0, 0] by { LEFour(1); } }
    LexAfter(Zeros(32), [0, 0, 0, 0], [1, 0, 0, 0]);
  }

  lemma LEFour(k: byte)
    ensures LE(k, 4) == [k, 0, 0, 0]
  {
    LEZero(3);
    assert LE(k, 4) == [k] + LE(0, 3);
  }

  lemma {:induction false} LexAfter(p: bytes, a: bytes, b: bytes)
    requires LexLess(a, b)
    ensures LexLess(p + a, p + b)
  {
    if p == [] {
      assert p + a == a && p + b == b;
    } else {
      assert (p + a)[1..] == p[1..] + a && (p + b)[1..] == p[1..] + b;
      LexAfter(p[1..], a, b);
    }
  }

  /** On the chain the range is kept exactly as far as the head's own amount keeps it, which consensus sees to. */
  lemma MoneyRangeOnChain(s: System, h: History, g: bytes, k: nat, d: nat)
    requires Confirmed(s, h) && CollisionFree(s, h) && d > 0 && HeadAfter(s, h, g, k, d)
    ensures Proved(s, h[k]) && h[k].tx.outputs != []
    ensures MoneyRange(AccountsAfter(s, h, k), h[k].tx.outputs[0].amount) <==> h[k].tx.outputs[0].amount <= MAX_MONEY
  {
    hide Confirmed, CollisionFree, HeadAfter, Proved, AccountsAfter, CabooseSpk;
    Solvent(s, h, g, k, d);
  }
}
