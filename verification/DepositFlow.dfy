// A deposit from its leaf to the credited account, and the absence of replay along a bridge.
module DepositFlow {
  import opened Bytes
  import opened Transactions
  import opened Statements
  import opened Script
  import opened TxContext
  import opened Linearization
  import opened Deposit
  import opened DepositLeaf
  import opened BridgeHead
  import opened BridgeDeposits
  import opened BridgeStatement
  import opened BridgeOutputs
  import opened BridgeDigest
  import opened BridgePrograms
  import opened BridgeRuns
  import opened Accounts
  import opened Transitions
  import opened Ledger
  import opened Attested
  import opened Lineage
  import opened Solvency
  import opened Flows

  // ---------- scripts behind an output ----------

  lemma TweakSame(s: System, h: History, a: bytes, b: bytes)
    requires CollisionFree(s, h) && a in Hashed(s, h) && b in Hashed(s, h)
    requires TweakOf(s, a).Some? && TweakOf(s, a) == TweakOf(s, b)
    ensures a == b
  {
    hide Hashed, StatementStrings, Sha;
    ShaSame(s, h, a, b);
  }

  lemma TweakPreimageSame(sha: Hash, a: bytes, b: bytes)
    requires TweakPreimage(sha, a) == TweakPreimage(sha, b)
    ensures Sha(sha, LeafPreimage(sha, a)) == Sha(sha, LeafPreimage(sha, b))
  {
    hide Sha, LeafPreimage, TagPrefix;
    var p := TagPrefix(sha, TAP_TWEAK) + NUMS_INTERNAL_KEY;
    Peel(p, Sha(sha, LeafPreimage(sha, a)), p, Sha(sha, LeafPreimage(sha, b)));
  }

  lemma LeafPreimageSame(sha: Hash, a: bytes, b: bytes)
    requires |a| < U64 && |b| < U64 && LeafPreimage(sha, a) == LeafPreimage(sha, b)
    ensures a == b
  {
    hide CompactSize, TagPrefix;
    var p := TagPrefix(sha, TAP_LEAF) + [LEAF_VERSION];
    assert LeafPreimage(sha, a) == p + (CompactSize(|a|) + a);
    assert LeafPreimage(sha, b) == p + (CompactSize(|b|) + b);
    Peel(p, CompactSize(|a|) + a, p, CompactSize(|b|) + b);
    CompactSizePeel(|a|, |b|, a, b);
  }

  /** One output script reveals one script. */
  lemma TapSame(s: System, h: History, w: World, a: bytes, b: bytes)
    requires CollisionFree(s, h) && w.sha == s.t.sha && w.tweak == s.tweak && |a| < U64 && |b| < U64
    requires ScriptStrings(w.sha, a) <= Hashed(s, h) && ScriptStrings(w.sha, b) <= Hashed(s, h)
    requires TapSpk(w, a).Some? && TapSpk(w, a) == TapSpk(w, b)
    ensures a == b
  {
    hide Hashed, CollisionFree, Sha, TweakPreimage, LeafPreimage;
    var x, y := TweakPreimage(w.sha, a), TweakPreimage(w.sha, b);
    var p, q := TweakOf(s, x), TweakOf(s, y);
    assert p.Some? && q.Some? && [0x51, 0x20] + p.value == [0x51, 0x20] + q.value;
    Peel([0x51, 0x20], p.value, [0x51, 0x20], q.value);
    TweakSame(s, h, x, y);
    TweakPreimageSame(w.sha, a, b);
    ShaSame(s, h, LeafPreimage(w.sha, a), LeafPreimage(w.sha, b));
    LeafPreimageSame(w.sha, a, b);
  }

  // ---------- a collected deposit ----------

  /** Entry `k` spends at input `i` an output made from deposit leaf `l` of this program, without its refund flag. */
  predicate SpendsDeposit(s: System, h: History, k: nat, i: nat, l: Leaf) {
    && Ordinary(s, h, k) && i < |h[k].tx.inputs| && l.Valid() && l.spk == s.spk && l in LeavesBehind(s, h, k, i)
    && TapSpk(WorldAt(s, h, k, i), LeafBytes(l)) == Some(SpentOutput(s, h, k, i).spk)
    && SpentOutput(s, h, k, i).spk != s.spk
    && match h[k].spends[i] case ByLeaf(_, st) => st == [] || !IsTrue(st[|st| - 1]) case _ => true
  }

  lemma DepositRan(s: System, h: History, k: nat, i: nat, l: Leaf)
    requires Confirmed(s, h) && CollisionFree(s, h) && SpendsDeposit(s, h, k, i, l)
    ensures h[k].spends[i].ByLeaf? && h[k].spends[i].script == LeafBytes(l)
    ensures Accepted(RunBytes(LeafBytes(l), Fresh(h[k].spends[i].stack), WorldAt(s, h, k, i)))
  {
    hide Confirmed, CollisionFree, Hashed, TapSpk, LeafBytes, RunBytes, SpentOutput, SpentOutputs, Accepted, ProgramRan;
    hide Deployed;
    assert s.Valid() && s.t.Valid() by { ConfirmedValid(s, h); }
    RulesAt(s, h, k, i);
    var w, script := WorldAt(s, h, k, i), h[k].spends[i].script;
    RevealedHashed(s, h, k, i);
    SpentHashed(s, h, k, i, l);
    assert LeafSize() < U32 && |LeafBytes(l)| == LeafSize() by { LeafFits(s, l); }
    TapSame(s, h, w, script, LeafBytes(l));
  }

  lemma LeafFits(s: System, l: Leaf)
    requires s.Valid() && l.Valid()
    ensures LeafSize() < U32 && |LeafBytes(l)| == LeafSize() && BodyCompiled()
  {
    hide CompiledTo, LeafBytes, LeafSize, BodyCompiled;
    LeafLength(l);
  }

  lemma CommittedHashed(s: System, h: History, k: nat, l: Leaf)
    requires k < |h| && l in h[k].leaves
    ensures ScriptStrings(s.t.sha, LeafBytes(l)) <= Hashed(s, h)
  {
    hide Hashed, TxStrings, ClaimStrings, LeafStrings, RootStrings, ClaimOf, ScriptStrings, RevealedStrings;
    hide CommittedStrings;
    hide EntryStatements;
    HashedAt(s, h, k);
    CommittedIn(s.t.sha, h[k].leaves, l);
  }

  /** The leaf a spent deposit was made from is among the strings of the run. */
  lemma SpentHashed(s: System, h: History, k: nat, i: nat, l: Leaf)
    requires SpendsDeposit(s, h, k, i, l)
    ensures ScriptStrings(s.t.sha, LeafBytes(l)) <= Hashed(s, h)
  {
    hide Hashed, TapSpk, LeafBytes, ScriptStrings, SpentOutput, WorldAt;
    assert Resolves(s, h, k, i);
    CommittedHashed(s, h, h[k].source[i], l);
  }

  lemma RevealedHashed(s: System, h: History, k: nat, i: nat)
    requires |s.t.keys| == 3 && k < |h| && i < |h[k].spends| && h[k].spends[i].ByLeaf?
    ensures ScriptStrings(s.t.sha, h[k].spends[i].script) <= Hashed(s, h)
  {
    hide Hashed, TxStrings, ClaimStrings, LeafStrings, RootStrings, ClaimOf, ScriptStrings, RevealedStrings;
    hide CommittedStrings;
    hide EntryStatements;
    HashedAt(s, h, k);
  }

  /** The transaction spending a deposit without its refund flag spends the program in input 0. */
  lemma DepositJoins(s: System, h: History, k: nat, i: nat, l: Leaf)
    requires Confirmed(s, h) && CollisionFree(s, h) && SpendsDeposit(s, h, k, i, l)
    ensures IsStep(s, h, k) && 1 <= i < 3 && |h[k].tx.inputs| == 4
  {
    hide Confirmed, CollisionFree, Hashed, TapSpk, LeafBytes, RunBytes, SpentOutput, SpentOutputs, Accepted;
    hide BodyCompiled, WellFormed;
    hide JoinsHead, Deployed, Hash256, ScriptStrings;
    DepositRan(s, h, k, i, l);
    assert s.Valid() by { ConfirmedValid(s, h); }
    LeafFits(s, l);
    ContextFormed(s, h, k, i);
    var st, w := h[k].spends[i].stack, WorldAt(s, h, k, i);
    if st == [] {
      EmptyRejected(l, w);
    } else {
      CollectPathMeans(l, st, w);
      assert ContextAt(s, h, k, i).spent[0] == SpentOutput(s, h, k, 0);
    }
  }

  lemma EmptyRejected(l: Leaf, w: World)
    requires l.Valid() && BodyCompiled() && LeafSize() < U32
    ensures !Accepted(RunBytes(LeafBytes(l), Fresh([]), w))
  {
    hide Run, LeafCode, LeafBytes, BodyCompiled, LeafSize;
    EmptyWitnessFails(l, w);
    LeafWellFormed(l);
    LeafAssembled(l);
    RunAssembled(LeafCode(l), Fresh([]), w);
  }

  function TicketOf(st: seq<bytes>, i: nat): Ticket
    requires |st| >= 10
  {
    if i == 1 then TicketA(st) else TicketB(st)
  }

  lemma TicketHashed(s: System, h: History, k: nat, i: nat)
    requires |s.t.keys| == 3 && k < |h| && h[k].spends != [] && h[k].spends[0].ByCollection?
             && |h[k].spends[0].stack| >= 10
    ensures ScriptStrings(s.t.sha, TicketLeaf(s, ClaimOf(h[k]), TicketOf(h[k].spends[0].stack, i))) <= Hashed(s, h)
  {
    hide Hashed, TxStrings, ClaimStrings, RevealedStrings, CommittedStrings, RootStrings, ClaimOf, ScriptStrings;
    hide TicketLeaf;
    hide EntryStatements;
    HashedAt(s, h, k);
  }

  lemma DepositedAs(s: System, h: History, k: nat, i: nat)
    requires s.t.Valid() && IsStep(s, h, k) && CollectionRan(s, h, k, 0) && (i == 1 || i == 2)
    ensures |h[k].spends[0].stack| >= 10 && |ClaimOf(h[k]).bridgeId| == 32
    ensures Deposited(s.t, WorldAt(s, h, k, 0), i, ClaimOf(h[k]).bridgeId, TicketOf(h[k].spends[0].stack, i))
  {
    hide CollectionOpened, ParentAccepted, CollectionStatement, InputIs, Deposited, SpentOutput, SpentOutputs, ClaimOf;
    CollectionRead(s, h, k);
    OpenedIdentity(s.t, WorldAt(s, h, k, 0), ClaimOf(h[k]));
  }

  predicate TicketShows(keys: seq<bytes>, x: Claim, q: Ticket, l: Leaf) {
    && Val(q.recipient) == l.recipient < |keys| && q.refund == l.refund && x.bridgeId == l.bridgeId
    && keys[l.recipient] == l.key
  }

  /** The ticket the collection shows for a deposit is the deposit's own leaf. */
  lemma TicketIsLeaf(s: System, h: History, k: nat, i: nat, l: Leaf)
    requires Confirmed(s, h) && CollisionFree(s, h) && SpendsDeposit(s, h, k, i, l) && (i == 1 || i == 2)
    requires s.t.Valid() && IsStep(s, h, k) && CollectionRan(s, h, k, 0)
    ensures |h[k].spends[0].stack| >= 10 && TicketShows(s.t.keys, ClaimOf(h[k]), TicketOf(h[k].spends[0].stack, i), l)
  {
    hide Confirmed, CollisionFree, Hashed, TapSpk, LeafBytes, SpentOutput, SpentOutputs, CollectionRan, ClaimOf;
    hide ScriptStrings;
    hide RebuiltLeaf, Val, Deployed, BodyCompiled, LeafSize;
    DepositedAs(s, h, k, i);
    RanIsCollection(s, h, k);
    var q, w, v, x := TicketOf(h[k].spends[0].stack, i), WorldAt(s, h, k, 0), WorldAt(s, h, k, i), ClaimOf(h[k]);
    SpentFirst(s, h, k);
    RebuiltIsLeaf(s.t, w, x.bridgeId, q);
    var m := LeafOf(s.t, w.ctx, x.bridgeId, q);
    TapWorlds(w, v, LeafBytes(m));
    TicketHashed(s, h, k, i);
    SpentHashed(s, h, k, i, l);
    assert s.Valid() by { ConfirmedValid(s, h); }
    LeafFits(s, l);
    LeafFits(s, m);
    assert w.ctx.spent[i] == SpentOutput(s, h, k, i);
    TapSame(s, h, v, LeafBytes(l), LeafBytes(m));
    LeafInjective(l, m);
  }

  /** The output script of a leaf does not depend on which input asks. */
  lemma TapWorlds(w: World, v: World, script: bytes)
    requires w.sha == v.sha && w.tweak == v.tweak
    ensures TapSpk(w, script) == TapSpk(v, script)
  {
  }

  /** Deposit end to end. An output made from a deposit leaf and spent without the refund flag is always spent as one
      of the two deposits of a confirmed collection of the identity in its leaf; its full amount reaches the head's
      successor; and the attested accounts credit exactly that amount to the recipient the leaf commits to. */
  lemma DepositCredited(s: System, h: History, k: nat, i: nat, l: Leaf)
    requires Confirmed(s, h) && CollisionFree(s, h) && SpendsDeposit(s, h, k, i, l)
    ensures IsStep(s, h, k) && h[k].spends[0].ByCollection? && IdentityOf(h, k) == l.bridgeId && (i == 1 || i == 2)
    ensures CollectionSums(s, SpentOutputs(s, h, k), h[k].tx.outputs)
    ensures Proved(s, h[k]) && h[k].proof.value.Collect? && CollectionInput(s, h, k).WellFormed()
    ensures var c := CollectionInput(s, h, k);
            && c.deposits[i - 1] == DepositInput(h[k].tx.inputs[i].prevout, SpentOutput(s, h, k, i).amount, l.recipient)
            && CreditsExactly(c, AccountsAfter(s, h, k)) && s.t.Valid() && s.t.keys[l.recipient] == l.key
  {
    hide Confirmed, CollisionFree, Hashed, TapSpk, LeafBytes, SpentOutput, SpentOutputs, CollectionRan, SettlementRan;
    hide ClaimOf;
    hide ScriptStrings, Val, Deployed, Proved, CreditsExactly, CollectionSums;
    DepositJoins(s, h, k, i, l);
    AttestedKind(s, h, k);
    if h[k].spends[0].BySettlement? {
      SettlementInputs(s, h, k);
      assert false;
    }
    TicketIsLeaf(s, h, k, i, l);
    CollectionAgrees(s, h, k);
    CollectionConserves(s, h, k);
    assert ContextAt(s, h, k, 0).spent[i] == SpentOutput(s, h, k, i);
  }

  lemma SettlementInputs(s: System, h: History, k: nat)
    requires s.t.Valid() && IsStep(s, h, k) && SettlementRan(s, h, k, 0)
    ensures |h[k].tx.inputs| == 2
  {
    hide ParentAccepted, SettlementStatement, InputIs, SettlementOutputs, Payout, SpentOutput, ClaimOf, Attests;
    hide AllNative;
    SettlementRead(s, h, k);
  }

  // ---------- no replay ----------

  /** No statement is accepted twice, anywhere in the ledger. */
  lemma StatementOnce(s: System, h: History, k: nat, m: nat)
    requires Confirmed(s, h) && CollisionFree(s, h) && IsStep(s, h, k) && IsStep(s, h, m)
    requires ClaimOf(h[k]).values == ClaimOf(h[m]).values
    ensures k == m
  {
    hide Confirmed, CollisionFree, ClaimOf, StatementOf, CabooseIs, SpentOutput, RootOf, RootIn, NewRoot, ActiveState;
    hide Hash256;
    hide CollectionSpec, SettlementSpec;
    StepParts(s, h, k);
    StepParts(s, h, m);
    var u, v := StatementOf(s.crypto, h[k].proof.value), StatementOf(s.crypto, h[m].proof.value);
    StatementOfEncodes(s.crypto, h[k].proof.value);
    StatementOfEncodes(s.crypto, h[m].proof.value);
    StatementInjective(u, v);
    ParentIs(s, h, k);
    ParentIs(s, h, m);
    assert Resolves(s, h, k, 0) && Resolves(s, h, m, 0);
    SameTx(s, h, ParentOf(h, k), ParentOf(h, m));
    SameSpend(s, h, k, m);
  }

  /** The settlement count only grows along a bridge. */
  lemma {:induction false} SettlementsGrow(s: System, h: History, g: bytes, k: nat, d: nat, m: nat, n: nat)
    requires Confirmed(s, h) && CollisionFree(s, h) && HeadAfter(s, h, g, k, d) && HeadAfter(s, h, g, m, n) && d <= n
    ensures Settlements(h, k, d) <= Settlements(h, m, n)
    decreases n
  {
    hide Confirmed, CollisionFree, ClaimOf, Hash256, SpendsProgram;
    if d == n {
      OneHeadAfter(s, h, g, k, m, d);
    } else {
      SettlementsGrow(s, h, g, k, d, ParentOf(h, m), n - 1);
    }
  }

  /** The withdrawal a settlement uses carries the number of settlements before it. */
  lemma WithdrawalNumber(s: System, h: History, g: bytes, k: nat, d: nat)
    requires Confirmed(s, h) && CollisionFree(s, h) && d > 0 && HeadAfter(s, h, g, k, d) && h[k].spends[0].BySettlement?
    ensures Proved(s, h[k]) && h[k].proof.value.Settle?
    ensures var i := SettlementInput(s, h, k);
            && i.WellFormed() && i.withdrawalNonce + 1 == Settlements(h, k, d) && TaprootScript(i.destination)
            && i.bridgeId == g
  {
    hide Confirmed, CollisionFree, ClaimOf, SpentOutput, RootOf, SettlementSpec, StatementOf, CabooseIs, SpendsProgram;
    hide RootIn, NewRoot;
    hide ActiveState, Hash256;
    RunKeepsAccounts(s, h, g, k, d);
    AttestedKind(s, h, k);
    StepParts(s, h, k);
    SettlementExact(s.crypto, SettlementInput(s, h, k));
    PayoutFields(s.crypto, SettlementInput(s, h, k));
  }

  /** No withdrawal message is used by two settlements, anywhere in the ledger. */
  lemma WithdrawalOnce(s: System, h: History, k: nat, m: nat)
    requires Confirmed(s, h) && CollisionFree(s, h) && IsStep(s, h, k) && IsStep(s, h, m)
    requires h[k].spends[0].BySettlement? && h[m].spends[0].BySettlement?
    requires Proved(s, h[k]) && h[k].proof.value.Settle? && Proved(s, h[m]) && h[m].proof.value.Settle?
    requires WithdrawalOf(SettlementInput(s, h, k)) == WithdrawalOf(SettlementInput(s, h, m))
    ensures k == m
  {
    hide Confirmed, CollisionFree, ClaimOf, Proved, SpentOutput, HeadAfter, Settlements;
    var g, d, n := IdentityOf(h, k), StepsTo(h, k), StepsTo(h, m);
    Descends(s, h, k);
    Descends(s, h, m);
    StepsPositive(h, k);
    StepsPositive(h, m);
    WithdrawalNumber(s, h, g, k, d);
    WithdrawalNumber(s, h, IdentityOf(h, m), m, n);
    var i, j := SettlementInput(s, h, k), SettlementInput(s, h, m);
    WithdrawalInjective(i.bridgeId, i.withdrawalNonce, i.withdrawalAmount, i.destination,
                        j.bridgeId, j.withdrawalNonce, j.withdrawalAmount, j.destination);
    if d == n {
      OneHeadAfter(s, h, g, k, m, d);
    } else if d < n {
      SettlementsPass(s, h, g, k, d, m, n);
    } else {
      SettlementsPass(s, h, g, m, n, k, d);
    }
  }

  lemma StepsPositive(h: History, k: nat)
    ensures StepsTo(h, k) > 0
  {
  }

  /** A settlement counts more settlements than any earlier head of its bridge. */
  lemma SettlementsPass(s: System, h: History, g: bytes, k: nat, d: nat, m: nat, n: nat)
    requires Confirmed(s, h) && CollisionFree(s, h) && HeadAfter(s, h, g, k, d) && HeadAfter(s, h, g, m, n) && d < n
    requires h[m].spends[0].BySettlement?
    ensures Settlements(h, k, d) < Settlements(h, m, n)
  {
    hide Confirmed, CollisionFree, ClaimOf, SpendsProgram, Hash256;
    SettlementsGrow(s, h, g, k, d, ParentOf(h, m), n - 1);
  }
}
