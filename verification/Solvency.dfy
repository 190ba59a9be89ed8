// Whole runs: after any number of confirmed collections and settlements the head holds exactly the reserve and the
// balances of the accounts it commits to, under the deployment's keys, and no authorization is used twice.
module Solvency {
  import opened Bytes
  import opened Transactions
  import opened Statements
  import opened Script
  import opened TxContext
  import opened Linearization
  import opened BridgeHead
  import opened BridgeOutputs
  import opened BridgeStatement
  import opened BridgeRuns
  import opened Accounts
  import opened Transitions
  import opened Ledger
  import opened Attested
  import opened Lineage

  /** The accounts before and after a step. */
  function Before(s: System, h: History, k: nat): seq<Account>
    requires k < |h| && Proved(s, h[k])
  {
    StateOf(h[k].proof.value)
  }

  function AccountsAfter(s: System, h: History, k: nat): seq<Account>
    requires k < |h| && Proved(s, h[k])
  {
    After(s, h[k]).newState
  }

  /** How many of the last `d` steps to entry `k` were settlements. */
  function Settlements(h: History, k: nat, d: nat): nat
    decreases d
  {
    if d == 0 || k >= |h| || !Formed(h[k]) then 0
    else (if h[k].spends[0].BySettlement? then 1 else 0) + Settlements(h, ParentOf(h, k), d - 1)
  }

  lemma StepParts(s: System, h: History, k: nat)
    requires Confirmed(s, h) && CollisionFree(s, h) && IsStep(s, h, k)
    ensures s.t.Valid() && s.crypto.sha == s.t.sha && s.t.genesisRoot == RootOf(s.t.sha, EmptyAccounts(s.t.keys))
    ensures Formed(h[k]) && Proved(s, h[k]) && CabooseIs(s, h[k]) && StatementAgrees(s, h[k])
    ensures State(Before(s, h, k)) && State(AccountsAfter(s, h, k))
    ensures var x := ClaimOf(h[k]);
            && RootIn(x) == RootOf(s.t.sha, Before(s, h, k))
            && NewRoot(x) == RootOf(s.t.sha, AccountsAfter(s, h, k))
    ensures Total(Before(s, h, k)) == SpentOutput(s, h, k, 0).amount
            && Total(AccountsAfter(s, h, k)) == h[k].tx.outputs[0].amount
    ensures |ClaimOf(h[k]).bridgeId| == 32
            && ClaimOf(h[k]).newState == ActiveState(ClaimOf(h[k]).bridgeId, NewRoot(ClaimOf(h[k])))
  {
    hide Confirmed, CollisionFree, ParentAccepted, ClaimOf, CabooseIs, RootOf, StatementAgrees, Proved, RootIn, NewRoot;
    hide Deployed;
    ConfirmedValid(s, h);
    ProgramSpendStepped(s, h, k, 0);
    SteppedNewState(s, h, k);
  }

  lemma RootSame(s: System, h: History, a: seq<Account>, b: seq<Account>)
    requires CollisionFree(s, h) && State(a) && State(b)
    requires RootPreimage(a) in Hashed(s, h) && RootPreimage(b) in Hashed(s, h)
             && RootOf(s.t.sha, a) == RootOf(s.t.sha, b)
    ensures a == b
  {
    hide CollisionFree, Hashed, RootPreimage, Sha;
    ShaSame(s, h, RootPreimage(a), RootPreimage(b));
    RootPreimageInjective(a, b);
  }

  lemma RootsHashed(s: System, h: History, k: nat)
    requires |s.t.keys| == 3 && k < |h| && Proved(s, h[k]) && State(AccountsAfter(s, h, k)) && State(Before(s, h, k))
    ensures RootPreimage(Before(s, h, k)) in Hashed(s, h) && RootPreimage(AccountsAfter(s, h, k)) in Hashed(s, h)
    ensures RootPreimage(EmptyAccounts(s.t.keys)) in Hashed(s, h)
  {
    hide Hashed, RootPreimage, TxStrings, ClaimStrings, LeafStrings, RevealedStrings, Transitioned, EntryStatements;
    hide StatementStrings;
    HashedAt(s, h, k);
    HashedGenesis(s, h);
  }

  lemma EmptyIsState(keys: seq<bytes>)
    requires |keys| == 3 && |keys[0]| == 32 && |keys[1]| == 32 && |keys[2]| == 32
    ensures State(EmptyAccounts(keys))
  {
  }

  /** The first step starts from three empty accounts under the deployment's keys, so its head held the reserve. */
  lemma StartsEmpty(s: System, h: History, k: nat)
    requires Confirmed(s, h) && CollisionFree(s, h) && IsStep(s, h, k) && FollowsGenesis(h, k)
    ensures Proved(s, h[k]) && s.t.Valid() && Before(s, h, k) == EmptyAccounts(s.t.keys)
    ensures SpentOutput(s, h, k, 0).amount == RESERVE
  {
    hide Confirmed, CollisionFree, ClaimOf, CabooseIs, RootOf, StatementAgrees, Proved, RootIn, NewRoot, SpentOutput;
    hide Hashed;
    hide RootPreimage, Hash256, CabooseSpk, GenesisState, ActiveState;
    StepParts(s, h, k);
    FirstStep(s, h, k);
    RootsHashed(s, h, k);
    EmptyIsState(s.t.keys);
    RootSame(s, h, Before(s, h, k), EmptyAccounts(s.t.keys));
  }

  /** A later step starts from the accounts its predecessor ended with. */
  lemma StartsFromParent(s: System, h: History, k: nat)
    requires Confirmed(s, h) && CollisionFree(s, h) && IsStep(s, h, k) && !FollowsGenesis(h, k)
    ensures var f := ParentOf(h, k);
            Proved(s, h[k]) && f < k && Proved(s, h[f]) && Before(s, h, k) == AccountsAfter(s, h, f)
  {
    hide Confirmed, CollisionFree, ClaimOf, CabooseIs, RootOf, StatementAgrees, Proved, RootIn, NewRoot, SpentOutput;
    hide Hashed;
    hide RootPreimage, ActiveState;
    StepParts(s, h, k);
    LaterStep(s, h, k);
    var f := ParentOf(h, k);
    StepParts(s, h, f);
    RootsHashed(s, h, k);
    RootsHashed(s, h, f);
    RootSame(s, h, Before(s, h, k), AccountsAfter(s, h, f));
  }

  /** The keys are the deployment's, and the two counters count settlements. */
  predicate Ledgered(s: System, a: seq<Account>, settled: nat) {
    && |a| == 3 && |s.t.keys| == 3 && (forall i :: 0 <= i < 3 ==> a[i].key == s.t.keys[i])
    && a[0].nonce == a[1].nonce == settled && a[2].nonce == 0
  }

  lemma StepLedgered(s: System, h: History, k: nat, settled: nat)
    requires k < |h| && Formed(h[k]) && Proved(s, h[k]) && StatementAgrees(s, h[k])
             && Ledgered(s, Before(s, h, k), settled)
    ensures Ledgered(s, AccountsAfter(s, h, k), settled + if h[k].spends[0].BySettlement? then 1 else 0)
  {
    hide ClaimOf, StatementOf, Ledgered, CollectionSpec, SettlementSpec;
    KindOf(s.crypto, h[k].proof.value);
    match h[k].proof.value
    case Collect(i) => CollectionLedgered(s, i, settled);
    case Settle(i) => SettlementLedgered(s, i, settled);
  }

  lemma CollectionLedgered(s: System, i: Collection, settled: nat)
    requires i.WellFormed() && CollectionSpec(s.crypto, i).Ok? && Ledgered(s, i.oldState, settled)
    ensures Ledgered(s, CollectionSpec(s.crypto, i).value.newState, settled)
  {
    hide CollectionSpec, RootOf, CollectionStatementOf;
    CollectionGuarantees(s.crypto, i);
    var a := CollectionSpec(s.crypto, i).value.newState;
    assert a[0].nonce == i.oldState[0].nonce && a[1].nonce == i.oldState[1].nonce && a[2].nonce == i.oldState[2].nonce;
  }

  lemma SettlementLedgered(s: System, i: Settlement, settled: nat)
    requires i.WellFormed() && SettlementSpec(s.crypto, i).Ok? && Ledgered(s, i.oldState, settled)
    ensures Ledgered(s, SettlementSpec(s.crypto, i).value.newState, settled + 1)
  {
    hide SettlementSpec, RootOf, SettlementStatementOf;
    SettlementGuarantees(s.crypto, i);
  }

  lemma KindOf(c: Crypto, p: ProofInput)
    requires p.WellFormed() && Transitioned(c, p).Ok?
    ensures StatementOf(c, p).CollectTwo? <==> p.Collect?
  {
    hide RootOf, CollectionSpec, SettlementSpec;
  }

  /** After every step: the deployment's keys, and nonces equal to the number of settlements so far. */
  lemma {:induction false} RunKeepsAccounts(s: System, h: History, g: bytes, k: nat, d: nat)
    requires Confirmed(s, h) && CollisionFree(s, h) && d > 0 && HeadAfter(s, h, g, k, d)
    ensures Proved(s, h[k]) && Ledgered(s, Before(s, h, k), Settlements(h, ParentOf(h, k), d - 1))
    ensures Ledgered(s, AccountsAfter(s, h, k), Settlements(h, k, d))
    ensures s.t.Valid() && (d == 1 ==> Before(s, h, k) == EmptyAccounts(s.t.keys))
    ensures d > 1 ==> Proved(s, h[ParentOf(h, k)]) && Before(s, h, k) == AccountsAfter(s, h, ParentOf(h, k))
    decreases d
  {
    hide Confirmed, CollisionFree, ClaimOf, CabooseIs, RootOf, StatementAgrees, Proved, SpentOutput, Hash256;
    hide SpendsProgram;
    hide RootIn, NewRoot, ActiveState;
    StepParts(s, h, k);
    if d == 1 {
      StartsEmpty(s, h, k);
    } else {
      StartsFromParent(s, h, k);
      RunKeepsAccounts(s, h, g, ParentOf(h, k), d - 1);
    }
    StepLedgered(s, h, k, Settlements(h, ParentOf(h, k), d - 1));
  }

  /** Whole-run solvency. After any number of confirmed steps of bridge `g`, output 0 of the head pays the program
      exactly the reserve plus the three balances of an account state that its last output commits to, together with
      the identity; the account keys are the deployment's and the nonces count the settlements. */
  lemma Solvent(s: System, h: History, g: bytes, k: nat, d: nat)
    requires Confirmed(s, h) && CollisionFree(s, h) && d > 0 && HeadAfter(s, h, g, k, d)
    ensures Proved(s, h[k]) && s.t.Valid()
    ensures var a, o := AccountsAfter(s, h, k), h[k].tx.outputs;
            && State(a) && Ledgered(s, a, Settlements(h, k, d)) && |o| >= 3
            && o[0] == TxOut(1_000 + a[0].balance + a[1].balance + a[2].balance, s.spk)
            && o[|o| - 1].spk == CabooseSpk(s.t.sha, ActiveState(g, RootOf(s.t.sha, a)))
  {
    hide Confirmed, CollisionFree, ClaimOf, RootOf, StatementAgrees, Proved, SpentOutput, SpendsProgram, CabooseSpk;
    hide RootIn, NewRoot, ActiveState;
    RunKeepsAccounts(s, h, g, k, d);
    StepParts(s, h, k);
    assert h[k].tx.outputs[0] == TxOut(h[k].tx.outputs[0].amount, h[k].tx.outputs[0].spk);
  }

  /** The genesis head held exactly the reserve as soon as one step is confirmed, although no script compares it. */
  lemma ReserveForced(s: System, h: History, g: bytes, k: nat)
    requires Confirmed(s, h) && CollisionFree(s, h) && HeadAfter(s, h, g, k, 1)
    ensures SpendsProgram(s, h, k, 0) && SpentOutput(s, h, k, 0) == TxOut(1_000, s.spk)
            && TxidAt(s, h, ParentOf(h, k)) == g
  {
    hide Confirmed, CollisionFree, ClaimOf, Hash256;
    StartsEmpty(s, h, k);
  }
}
