// One accepted spend of the program: what the scripts and the attested account transition together say about it.
module Attested {
  import opened Bytes
  import opened Transactions
  import opened Statements
  import opened Script
  import opened TxContext
  import opened Linearization
  import opened DepositLeaf
  import opened BridgeHead
  import opened BridgeOutputs
  import opened BridgeDeposits
  import opened BridgeStatement
  import opened BridgeDigest
  import opened BridgePrograms
  import opened BridgeRuns
  import opened Accounts
  import opened Transitions
  import opened Ledger

  /** Entry `k` spends a program output at input `i`. */
  predicate SpendsProgram(s: System, h: History, k: nat, i: nat) {
    Ordinary(s, h, k) && i < |h[k].tx.inputs| && SpentOutput(s, h, k, i).spk == s.spk
  }

  // ---------- collision freedom on the strings at hand ----------

  lemma ShaSame(s: System, h: History, a: bytes, b: bytes)
    requires CollisionFree(s, h) && a in Hashed(s, h) && b in Hashed(s, h)
    requires Sha(s.t.sha, a) == Sha(s.t.sha, b)
    ensures a == b
  {
    hide Hashed, StatementStrings;
  }

  lemma StatementSame(s: System, h: History, a: bytes, b: bytes)
    requires CollisionFree(s, h) && a in StatementStrings(s, h) && b in StatementStrings(s, h)
    requires MaskedDigest(s.t.sha, a) == MaskedDigest(s.t.sha, b)
    ensures a == b
  {
    hide Hashed, StatementStrings, MaskedDigest;
  }

  /** Equal txids mean equal transaction bytes. */
  lemma TxidSame(s: System, h: History, a: bytes, b: bytes)
    requires CollisionFree(s, h) && TxStrings(s.t.sha, a) <= Hashed(s, h) && TxStrings(s.t.sha, b) <= Hashed(s, h)
    requires Hash256(s.t.sha, a) == Hash256(s.t.sha, b)
    ensures a == b
  {
    hide Hashed, StatementStrings, CollisionFree, Sha;
    ShaSame(s, h, Sha(s.t.sha, a), Sha(s.t.sha, b));
    ShaSame(s, h, a, b);
  }

  /** Equal caboose scripts mean equal states. */
  lemma CabooseSame(s: System, h: History, a: bytes, b: bytes)
    requires CollisionFree(s, h) && StateStrings(s.t.sha, a) <= Hashed(s, h) && StateStrings(s.t.sha, b) <= Hashed(s, h)
    requires CabooseSpk(s.t.sha, a) == CabooseSpk(s.t.sha, b)
    ensures a == b
  {
    hide Hashed, StatementStrings, CollisionFree, Sha, CabooseScript;
    var x, y := CabooseScript(s.t.sha, a), CabooseScript(s.t.sha, b);
    Peel([0x00, 0x20], Sha(s.t.sha, x), [0x00, 0x20], Sha(s.t.sha, y));
    ShaSame(s, h, x, y);
    CabooseScriptSame(s.t.sha, a, b);
    ShaSame(s, h, a, b);
  }

  lemma CabooseScriptSame(sha: Hash, a: bytes, b: bytes)
    requires CabooseScript(sha, a) == CabooseScript(sha, b)
    ensures Sha(sha, a) == Sha(sha, b)
  {
    hide Sha;
    Peel([0x6a, 0x24] + Sha(sha, a), Zeros(4), [0x6a, 0x24] + Sha(sha, b), Zeros(4));
    Peel([0x6a, 0x24], Sha(sha, a), [0x6a, 0x24], Sha(sha, b));
  }

  // ---------- what the scripts accepted ----------

  lemma RulesAt(s: System, h: History, k: nat, i: nat)
    requires Confirmed(s, h) && Ordinary(s, h, k) && i < |h[k].tx.inputs|
    ensures SpendFollowsRules(s, h, k, i)
  {
    hide SpendFollowsRules, Resolved, SpentOnce;
    assert FollowsRules(s, h, k);
  }

  /** The leaf that ran, and the proof input its verifier attested. */
  predicate CollectionRan(s: System, h: History, k: nat, i: nat)
    requires Ordinary(s, h, k) && i < |h[k].tx.inputs|
  {
    && |s.t.keys| == 3 && h[k].spends[i].ByCollection?
    && CollectionWitness(s.t, WorldAt(s, h, k, i), h[k].spends[i].stack)
    && Attests(s, h[k].spends[i].stack[..|h[k].spends[i].stack| - 10], h[k].proof)
  }

  predicate SettlementRan(s: System, h: History, k: nat, i: nat)
    requires Ordinary(s, h, k) && i < |h[k].tx.inputs|
  {
    && |s.t.keys| == 3 && h[k].spends[i].BySettlement?
    && SettlementWitness(s.t, WorldAt(s, h, k, i), h[k].spends[i].stack)
    && Attests(s, h[k].spends[i].stack[..|h[k].spends[i].stack| - 6], h[k].proof)
  }

  lemma CollectionLeafRan(s: System, h: History, k: nat, i: nat)
    requires s.Valid() && Ordinary(s, h, k) && i < |h[k].tx.inputs| && h[k].spends[i].ByCollection?
    requires ProgramRan(s, CollectionPrefix(s.t), 10, h[k].spends[i].stack, h[k].proof, WorldAt(s, h, k, i))
    ensures CollectionRan(s, h, k, i)
  {
    hide Resolved, RunBytes, CollectionAccepted, Attests, CollectionPrefix, CompiledTo, CollectionProg, SpentOutputs;
    hide SpentOutput;
    hide BodyCompiled, LeafSize;
    ContextFormed(s, h, k, i);
    CollectionRuns(s.t, s.verifier, h[k].spends[i].stack, WorldAt(s, h, k, i));
  }

  lemma SettlementLeafRan(s: System, h: History, k: nat, i: nat)
    requires s.Valid() && Ordinary(s, h, k) && i < |h[k].tx.inputs| && h[k].spends[i].BySettlement?
    requires ProgramRan(s, SettlementPrefix(s.t), 6, h[k].spends[i].stack, h[k].proof, WorldAt(s, h, k, i))
    ensures SettlementRan(s, h, k, i)
  {
    hide Resolved, RunBytes, SettlementAccepted, Attests, SettlementPrefix, CompiledTo, SettlementProg, SpentOutputs;
    hide SpentOutput;
    hide BodyCompiled, LeafSize;
    ContextFormed(s, h, k, i);
    SettlementRuns(s.t, s.verifier, h[k].spends[i].stack, WorldAt(s, h, k, i));
  }

  /** A confirmed spend of the program is a collection or a settlement, attested by a proof. */
  lemma ProgramSpendRan(s: System, h: History, k: nat, i: nat)
    requires Confirmed(s, h) && SpendsProgram(s, h, k, i)
    ensures CollectionRan(s, h, k, i) || SettlementRan(s, h, k, i)
  {
    hide Confirmed, Resolved, ProgramRan, CollectionRan, SettlementRan, CollectionPrefix, SettlementPrefix;
    hide SpentOutputs, SpentOutput;
    hide Deployed, LeafBytes, TapSpk;
    ConfirmedValid(s, h);
    RulesAt(s, h, k, i);
    match h[k].spends[i]
    case ByCollection(st) => CollectionLeafRan(s, h, k, i);
    case BySettlement(st) => SettlementLeafRan(s, h, k, i);
    case _ =>
  }

  lemma ConfirmedValid(s: System, h: History)
    requires Confirmed(s, h)
    ensures s.Valid() && s.t.Valid() && s.crypto.sha == s.t.sha && TaprootScript(s.spk)
  {
  }

  /** The program only runs for input 0. */
  lemma ProgramSpendFirst(s: System, h: History, k: nat, i: nat)
    requires Confirmed(s, h) && SpendsProgram(s, h, k, i)
    ensures i == 0
  {
    hide Confirmed, Resolved, Attests, ParentAccepted, Deposited, CollectionStatement, SettlementStatement, InputIs;
    hide WellFormed;
    hide PlainContext, AllNative, CollectionOutputs, SettlementOutputs, SpentOutputs, SpentOutput;
    ConfirmedValid(s, h);
    ProgramSpendRan(s, h, k, i);
  }

  // ---------- the attested statement is the one the script read ----------

  lemma {:induction false} ValBEInjective(a: bytes, b: bytes)
    requires |a| == |b| && ValBE(a) == ValBE(b)
    ensures a == b
  {
    if a != [] {
      ValBEInjective(a[..|a| - 1], b[..|b| - 1]);
      assert a == a[..|a| - 1] + [a[|a| - 1]] && b == b[..|b| - 1] + [b[|b| - 1]];
    }
  }

  lemma InputNames(item: bytes, d: bytes, e: bytes)
    requires |d| == |e| && InputIs(item, d) && InputIs(item, e)
    ensures d == e
  {
    ValBEInjective(d, e);
  }

  /** The statement a valid proof input produces. */
  function StatementOf(c: Crypto, p: ProofInput): Statement
    requires p.WellFormed() && Transitioned(c, p).Ok?
  {
    match p
    case Collect(i) =>
      CollectionGuarantees(c, i);
      CollectionStatementOf(c, i, Transitioned(c, p).value.newState)
    case Settle(i) =>
      SettlementGuarantees(c, i);
      SettlementStatementOf(c, i, Transitioned(c, p).value.newState)
  }

  lemma StatementOfEncodes(c: Crypto, p: ProofInput)
    requires p.WellFormed() && Transitioned(c, p).Ok?
    ensures StatementOf(c, p).WellFormed() && Transitioned(c, p).value.statement == StatementOf(c, p).Encode()
  {
    hide CollectionSpec, SettlementSpec, CollectionStatementOf, SettlementStatementOf;
    match p
    case Collect(i) => CollectionGuarantees(c, i);
    case Settle(i) => SettlementGuarantees(c, i);
  }

  /** The proof input behind the entry's proof. */
  predicate Proved(s: System, e: Entry) {
    e.proof.Some? && e.proof.value.WellFormed() && Transitioned(s.crypto, e.proof.value).Ok?
  }

  function After(s: System, e: Entry): Transition
    requires Proved(s, e)
  {
    Transitioned(s.crypto, e.proof.value).value
  }

  /** One public input names one statement: the claimed bytes are the attested ones. */
  lemma ClaimedIsAttested(s: System, h: History, k: nat, stack: seq<bytes>, names: nat)
    requires CollisionFree(s, h) && k < |h| && |stack| >= names
    requires Attests(s, stack[..|stack| - names], h[k].proof)
    requires InputIs(stack[1], MaskedDigest(s.t.sha, ClaimOf(h[k]).values))
    ensures Proved(s, h[k]) && ClaimOf(h[k]).values == After(s, h[k]).statement
  {
    hide MaskedDigest, InputIs, CollisionFree, Hashed, ClaimOf, Transitioned;
    HashedAt(s, h, k);
    var v, u := ClaimOf(h[k]).values, After(s, h[k]).statement;
    InputNames(stack[1], MaskedDigest(s.t.sha, v), MaskedDigest(s.t.sha, u));
    assert v in EntryStatements(s, h[k]) && u in EntryStatements(s, h[k]);
    StatementSame(s, h, v, u);
  }

  /** What an accepted spend of the program establishes, whichever leaf ran: an authenticated head, and an attested
      transition of accounts with the roots and amounts of this transaction. */
  predicate Stepped(s: System, h: History, k: nat)
    requires Ordinary(s, h, k)
  {
    var c, x, e := ContextAt(s, h, k, 0), ClaimOf(h[k]), h[k];
    && |x.bridgeId| == 32 && ParentAccepted(s.t, c, x) && Proved(s, e)
    && e.tx.inputs[0].prevout.vout == 0 && SpkOf(c) == s.spk && CabooseIs(s, e)
    && HeaderAgrees(s, e, c.spent[0].amount) && StatementAgrees(s, e)
  }

  /** The attested statement names this spend, and its action is that of the leaf. */
  predicate StatementAgrees(s: System, e: Entry)
    requires Proved(s, e)
  {
    var u := StatementOf(s.crypto, e.proof.value);
    && ClaimOf(e).values == u.Encode() && u.h.bridgeId == ClaimOf(e).bridgeId
    && e.tx.inputs != [] && u.h.prevout == e.tx.inputs[0].prevout
    && e.spends != [] && (u.CollectTwo? <==> e.spends[0].ByCollection?)
    && (u.TransferWithdraw? <==> e.spends[0].BySettlement?)
  }

  /** The transaction's first output continues the program and its last commits to the new state. */
  predicate CabooseIs(s: System, e: Entry) {
    && e.spends != [] && |e.tx.outputs| >= 3 && e.tx.outputs[0].spk == s.spk
    && e.tx.outputs[|e.tx.outputs| - 1] == TxOut(CABOOSE_VALUE, CabooseSpk(s.t.sha, ClaimOf(e).newState))
    && if e.spends[0].ByCollection? then e.tx.Plain(4, 3) else e.tx.Plain(2, 4)
  }

  /** The attested roots and amounts are the transaction's. */
  predicate HeaderAgrees(s: System, e: Entry, spent: nat)
    requires Proved(s, e)
  {
    StatesAgree(s, ClaimOf(e), StateOf(e.proof.value), After(s, e).newState, spent, e.tx)
  }

  predicate StatesAgree(s: System, x: Claim, before: seq<Account>, after: seq<Account>, spent: nat, tx: Tx) {
    && State(before) && State(after) && tx.outputs != []
    && RootIn(x) == RootOf(s.crypto.sha, before) && NewRoot(x) == RootOf(s.crypto.sha, after)
    && Total(before) == spent && Total(after) == tx.outputs[0].amount
  }

  // ---------- both kinds of spend are steps ----------

  /** The header of a valid input's statement. */
  lemma HeaderOf(c: Crypto, p: ProofInput)
    requires p.WellFormed() && Transitioned(c, p).Ok?
    ensures var h, t := StatementOf(c, p).h, Transitioned(c, p).value;
            && State(StateOf(p)) && State(t.newState)
            && h.oldRoot == RootOf(c.sha, StateOf(p)) && h.newRoot == RootOf(c.sha, t.newState)
            && h.oldBacking == Total(StateOf(p)) && h.newBacking == Total(t.newState)
  {
    hide RootOf, GoodKeys, SupportedTransfer, TransferSigned, ScopedSigned, WithdrawalSigned, LexLess, KeyError;
    match p
    case Collect(i) =>
      CollectionExact(c, i);
      CollectionGuarantees(c, i);
    case Settle(i) =>
      SettlementExact(c, i);
      SettlementGuarantees(c, i);
  }

  /** A script statement that is also the attested one fixes the roots and amounts. */
  lemma HeadersMeet(s: System, h: History, k: nat, stack: seq<bytes>, names: nat, u: Statement)
    requires s.Valid() && s.t.Valid() && CollisionFree(s, h) && k < |h| && |stack| >= names
    requires Attests(s, stack[..|stack| - names], h[k].proof)
    requires InputIs(stack[1], MaskedDigest(s.t.sha, ClaimOf(h[k]).values))
    requires u.WellFormed() && ClaimOf(h[k]).values == u.Encode()
    ensures Proved(s, h[k]) && u == StatementOf(s.crypto, h[k].proof.value)
    ensures var e := h[k];
            && State(StateOf(e.proof.value)) && State(After(s, e).newState)
            && u.h.oldRoot == RootOf(s.crypto.sha, StateOf(e.proof.value))
            && u.h.newRoot == RootOf(s.crypto.sha, After(s, e).newState)
            && u.h.oldBacking == Total(StateOf(e.proof.value)) && u.h.newBacking == Total(After(s, e).newState)
  {
    hide MaskedDigest, InputIs, CollisionFree, Transitioned, ClaimOf, RootOf, StatementOf, Deployed, Attests;
    ClaimedIsAttested(s, h, k, stack, names);
    StatementOfEncodes(s.crypto, h[k].proof.value);
    StatementInjective(u, StatementOf(s.crypto, h[k].proof.value));
    HeaderOf(s.crypto, h[k].proof.value);
  }

  lemma PlainOutputs(c: Context, ins: byte, outs: byte)
    requires PlainContext(c, ins, outs) && forall j :: 0 <= j < |c.tx.outputs| ==> c.tx.outputs[j].Plain()
    ensures c.tx.Plain(ins, outs) && c.tx.inputs[0].prevout.vout == 0
  {
    hide Spks;
  }

  lemma CollectionOutputsShape(t: Terms, c: Context, caboose: bytes)
    requires WellFormed(c) && Covenant(c, 4, 3, t.sponsor) && t.Valid() && |caboose| == 34
    requires c.tx.outputs == CollectionOutputs(t, c, caboose)
    ensures c.tx.Plain(4, 3) && c.tx.inputs[0].prevout.vout == 0 && c.tx.outputs[0].spk == SpkOf(c)
    ensures c.tx.outputs[2] == TxOut(CABOOSE_VALUE, caboose) && |c.tx.outputs| == 3 && |c.spent| == 4
  {
    hide Spks, PlainContext, AllNative;
    CovenantParts(c, 4, 3, t.sponsor);
    ValueSmall(c, 3);
    PlainOutputs(c, 4, 3);
  }

  lemma ValueSmall(c: Context, k: nat)
    requires WellFormed(c)
    ensures Value(c, k) < U64
  {
  }

  /** What a collection's witness stack claims was accepted. */
  lemma CollectionRead(s: System, h: History, k: nat)
    requires s.t.Valid() && Ordinary(s, h, k) && CollectionRan(s, h, k, 0)
    ensures var st, w, x := h[k].spends[0].stack, WorldAt(s, h, k, 0), ClaimOf(h[k]);
            && |st| >= 10 && CollectionAccepted(s.t, w, x, TicketA(st), TicketB(st), st[1])
            && Val(TicketA(st).recipient) < 3 && Val(TicketB(st).recipient) < 3 && |RootIn(x)| == 32
            && |x.newState| == 73
  {
    hide CollectionOpened, Deposited, ParentAccepted, CollectionStatement, InputIs, MaskedDigest, Attests, SpentOutputs;
    hide RootIn;
    var st, w, x := h[k].spends[0].stack, WorldAt(s, h, k, 0), ClaimOf(h[k]);
    AcceptedRoots(s.t, w.ctx, x);
    DepositedRecipient(s.t, w, 1, x.bridgeId, TicketA(st));
    DepositedRecipient(s.t, w, 2, x.bridgeId, TicketB(st));
  }

  /** The statement the collection script demands. */
  function CollectionDemand(s: System, h: History, k: nat): Statement
    requires s.t.Valid() && Ordinary(s, h, k) && CollectionRan(s, h, k, 0)
  {
    CollectionRead(s, h, k);
    var st := h[k].spends[0].stack;
    CollectionStatement(s.t, ContextAt(s, h, k, 0), ClaimOf(h[k]), TicketA(st).recipient, TicketB(st).recipient)
  }

  /** The attested transition is the one the collection script demands. */
  lemma CollectionMeets(s: System, h: History, k: nat)
    requires Confirmed(s, h) && CollisionFree(s, h) && s.t.Valid() && Ordinary(s, h, k) && CollectionRan(s, h, k, 0)
    ensures Proved(s, h[k]) && CollectionDemand(s, h, k) == StatementOf(s.crypto, h[k].proof.value)
    ensures State(StateOf(h[k].proof.value)) && State(After(s, h[k]).newState)
    ensures var u := CollectionDemand(s, h, k);
            && ClaimOf(h[k]).values == u.Encode()
            && u.h.oldRoot == RootOf(s.crypto.sha, StateOf(h[k].proof.value))
            && u.h.newRoot == RootOf(s.crypto.sha, After(s, h[k]).newState)
            && u.h.oldBacking == Total(StateOf(h[k].proof.value)) && u.h.newBacking == Total(After(s, h[k]).newState)
  {
    hide Confirmed, CollisionFree, Attests, ParentAccepted, Deposited, CollectionStatement, InputIs, MaskedDigest;
    hide Proved, After;
    hide CollectionOpened, SpentOutputs, SpentOutput, RootIn, CompiledTo, Deployed, WellFormed, RootOf;
    var st, x := h[k].spends[0].stack, ClaimOf(h[k]);
    CollectionRead(s, h, k);
    ConfirmedValid(s, h);
    ContextFormed(s, h, k, 0);
    assert |x.bridgeId| == 32 by { OpenedIdentity(s.t, WorldAt(s, h, k, 0), x); }
    CollectionStatementMeans(s.t, ContextAt(s, h, k, 0), x, TicketA(st).recipient, TicketB(st).recipient);
    HeadersMeet(s, h, k, st, 10, CollectionDemand(s, h, k));
  }

  lemma OpenedIdentity(t: Terms, w: World, x: Claim)
    requires CollectionOpened(t, w, x)
    ensures |x.bridgeId| == 32
  {
  }

  /** What an accepted collection says of its own transaction. */
  lemma AcceptedShape(t: Terms, w: World, x: Claim, a: Ticket, b: Ticket, item: bytes)
    requires t.Valid() && WellFormed(w.ctx) && w.sha == t.sha && CollectionAccepted(t, w, x, a, b, item)
    ensures ParentAccepted(t, w.ctx, x)
    ensures |x.bridgeId| == 32 && w.ctx.tx.Plain(4, 3) && w.ctx.tx.inputs[0].prevout.vout == 0 && |w.ctx.spent| == 4
    ensures w.ctx.tx.outputs[0] == TxOut(Kept(Sum3(w.ctx)), SpkOf(w.ctx))
    ensures w.ctx.tx.outputs[2] == TxOut(CABOOSE_VALUE, CabooseSpk(t.sha, x.newState))
  {
    hide WellFormed, Covenant, CollectionOutputs, CabooseSpk, Kept, SpkOf, ParentAccepted, Deposited, InputIs;
    hide CollectionStatement;
    var caboose := CabooseSpk(t.sha, x.newState);
    CabooseLength(t.sha, x.newState);
    CollectionOutputsShape(t, w.ctx, caboose);
    CollectionFirstOutput(t, w.ctx, caboose);
  }

  /** The outputs of a collection continue the program and commit to the new state. */
  lemma CollectionCaboose(s: System, h: History, k: nat)
    requires s.t.Valid() && SpendsProgram(s, h, k, 0) && CollectionRan(s, h, k, 0)
    ensures CabooseIs(s, h[k]) && h[k].tx.inputs[0].prevout.vout == 0
            && h[k].tx.outputs[0].amount == Kept(Sum3(ContextAt(s, h, k, 0)))
    ensures |ClaimOf(h[k]).bridgeId| == 32 && ParentAccepted(s.t, ContextAt(s, h, k, 0), ClaimOf(h[k]))
    ensures |ContextAt(s, h, k, 0).spent| == 4
  {
    hide ParentAccepted, Deposited, CollectionStatement, InputIs, MaskedDigest, WellFormed, Covenant, CollectionOutputs;
    hide SpentOutputs, SpentOutput, CabooseSpk, CollectionRan, Spks, ClaimOf, Kept, Resolved, CollectionAccepted, Val;
    hide RootIn, SpkOf;
    var c, x := ContextAt(s, h, k, 0), ClaimOf(h[k]);
    ContextFormed(s, h, k, 0);
    RanIsCollection(s, h, k);
    CollectionRead(s, h, k);
    var st := h[k].spends[0].stack;
    AcceptedShape(s.t, WorldAt(s, h, k, 0), x, TicketA(st), TicketB(st), st[1]);
    SpentFirst(s, h, k);
  }

  lemma RanIsCollection(s: System, h: History, k: nat)
    requires s.t.Valid() && Ordinary(s, h, k) && CollectionRan(s, h, k, 0)
    ensures h[k].spends[0].ByCollection?
  {
  }

  /** The parts of a step. */
  lemma MakeStep(s: System, h: History, k: nat, u: Statement)
    requires s.t.Valid() && SpendsProgram(s, h, k, 0) && Proved(s, h[k]) && CabooseIs(s, h[k])
    requires var x := ClaimOf(h[k]);
             |x.bridgeId| == 32 && ParentAccepted(s.t, ContextAt(s, h, k, 0), x) && x.values == u.Encode()
    requires h[k].tx.inputs[0].prevout.vout == 0 && u == StatementOf(s.crypto, h[k].proof.value)
    requires State(StateOf(h[k].proof.value)) && State(After(s, h[k]).newState)
    requires u.h.oldRoot == RootOf(s.crypto.sha, StateOf(h[k].proof.value))
             && u.h.newRoot == RootOf(s.crypto.sha, After(s, h[k]).newState)
    requires u.h.oldBacking == Total(StateOf(h[k].proof.value)) && u.h.newBacking == Total(After(s, h[k]).newState)
    requires u.h == HeaderFor(ContextAt(s, h, k, 0), ClaimOf(h[k]), h[k].tx.outputs[0].amount)
    requires if u.CollectTwo? then h[k].spends[0].ByCollection? else h[k].spends[0].BySettlement?
    ensures Stepped(s, h, k)
  {
    hide ParentAccepted, CabooseIs, Proved, After, RootOf, ClaimOf, StatementOf, SpentOutput, RootIn, NewRoot;
    SpentFirst(s, h, k);
    assert h[k].tx.outputs != [] && h[k].spends != [] by { CabooseParts(s, h[k]); }
  }

  lemma CabooseParts(s: System, e: Entry)
    requires CabooseIs(s, e)
    ensures e.tx.outputs != [] && e.spends != [] && |e.tx.outputs| >= 3
  {
  }

  lemma CollectionStepped(s: System, h: History, k: nat)
    requires Confirmed(s, h) && CollisionFree(s, h) && SpendsProgram(s, h, k, 0) && CollectionRan(s, h, k, 0)
    ensures Stepped(s, h, k)
  {
    hide Confirmed, CollisionFree, ParentAccepted, Proved, After, CollectionRan, ClaimOf, SpentOutput, RootOf;
    hide CabooseIs;
    hide Stepped, StatementOf, Deployed, Kept, CollectionStatement;
    ConfirmedValid(s, h);
    RanIsCollection(s, h, k);
    var c, x, st := ContextAt(s, h, k, 0), ClaimOf(h[k]), h[k].spends[0].stack;
    CollectionCaboose(s, h, k);
    CollectionMeets(s, h, k);
    CollectionRead(s, h, k);
    CollectionHeaderIs(s.t, c, x, TicketA(st).recipient, TicketB(st).recipient);
    MakeStep(s, h, k, CollectionDemand(s, h, k));
  }

  lemma CollectionFirstOutput(t: Terms, c: Context, caboose: bytes)
    ensures CollectionOutputs(t, c, caboose)[0].amount == Kept(Sum3(c))
  {
  }

  lemma CollectionHeaderIs(t: Terms, c: Context, x: Claim, a: bytes, b: bytes)
    requires |t.keys| == 3
    ensures CollectionStatement(t, c, x, a, b).CollectTwo?
            && CollectionStatement(t, c, x, a, b).h == HeaderFor(c, x, Kept(Sum3(c)))
  {
  }

  /** The script and the amount the program spend sees are those of the spent output. */
  lemma SpentFirst(s: System, h: History, k: nat)
    requires SpendsProgram(s, h, k, 0)
    ensures var c := ContextAt(s, h, k, 0);
            |c.spent| > 0 && SpkOf(c) == s.spk && Value(c, 0) == c.spent[0].amount
              && c.spent[0] == SpentOutput(s, h, k, 0)
  {
  }

  lemma SettlementOutputsShape(t: Terms, c: Context, values: bytes, caboose: bytes)
    requires WellFormed(c) && Covenant(c, 2, 4, t.sponsor) && t.Valid() && |caboose| == 34 && |values| == 320
    requires c.tx.outputs == SettlementOutputs(t, c, values, caboose)
    ensures c.tx.Plain(2, 4) && c.tx.inputs[0].prevout.vout == 0 && c.tx.outputs[0].spk == SpkOf(c)
    ensures c.tx.outputs[3] == TxOut(CABOOSE_VALUE, caboose) && |c.tx.outputs| == 4 && |c.spent| == 2
    ensures c.tx.outputs[0].amount == Excess(Value(c, 0), Payout(values).amount)
  {
    hide Spks, PlainContext, AllNative, Val;
    CovenantParts(c, 2, 4, t.sponsor);
    ValueSmall(c, 0);
    ValueSmall(c, 1);
    ValBound(values[277..285]);
    Pow256Values();
    PlainOutputs(c, 2, 4);
  }

  lemma SettlementHeaderIs(c: Context, x: Claim)
    requires |x.values| == 320
    ensures SettlementStatement(c, x).h == HeaderFor(c, x, Excess(Value(c, 0), Payout(x.values).amount))
    ensures SettlementStatement(c, x).TransferWithdraw?
  {
  }

  lemma SettlementRead(s: System, h: History, k: nat)
    requires s.t.Valid() && Ordinary(s, h, k) && SettlementRan(s, h, k, 0)
    ensures var st, w, x := h[k].spends[0].stack, WorldAt(s, h, k, 0), ClaimOf(h[k]);
            && |st| >= 6 && SettlementAccepted(s.t, w, x, st[1]) && |x.values| == 320 && |x.bridgeId| == 32
            && |RootIn(x)| == 32 && |x.newState| == 73
  {
    hide ParentAccepted, SettlementStatement, InputIs, MaskedDigest, Attests, SpentOutputs, RootIn, Covenant;
    hide SettlementOutputs, Payout;
    AcceptedRoots(s.t, ContextAt(s, h, k, 0), ClaimOf(h[k]));
  }

  /** The statement the settlement script demands. */
  function SettlementDemand(s: System, h: History, k: nat): Statement
    requires s.t.Valid() && Ordinary(s, h, k) && SettlementRan(s, h, k, 0)
  {
    SettlementRead(s, h, k);
    SettlementStatement(ContextAt(s, h, k, 0), ClaimOf(h[k]))
  }

  lemma SettlementMeets(s: System, h: History, k: nat)
    requires Confirmed(s, h) && CollisionFree(s, h) && s.t.Valid() && Ordinary(s, h, k) && SettlementRan(s, h, k, 0)
    ensures Proved(s, h[k]) && SettlementDemand(s, h, k) == StatementOf(s.crypto, h[k].proof.value)
    ensures State(StateOf(h[k].proof.value)) && State(After(s, h[k]).newState)
    ensures var u := SettlementDemand(s, h, k);
            && ClaimOf(h[k]).values == u.Encode()
            && u.h.oldRoot == RootOf(s.crypto.sha, StateOf(h[k].proof.value))
            && u.h.newRoot == RootOf(s.crypto.sha, After(s, h[k]).newState)
            && u.h.oldBacking == Total(StateOf(h[k].proof.value)) && u.h.newBacking == Total(After(s, h[k]).newState)
  {
    hide Confirmed, CollisionFree, Attests, ParentAccepted, SettlementStatement, InputIs, MaskedDigest, Proved, After;
    hide SettlementOpened;
    hide SpentOutputs, SpentOutput, RootIn, CompiledTo, Deployed, WellFormed, RootOf;
    SettlementRead(s, h, k);
    ConfirmedValid(s, h);
    ContextFormed(s, h, k, 0);
    SettlementStatementMeans(ContextAt(s, h, k, 0), ClaimOf(h[k]));
    HeadersMeet(s, h, k, h[k].spends[0].stack, 6, SettlementDemand(s, h, k));
  }

  lemma SettlementCaboose(s: System, h: History, k: nat)
    requires s.t.Valid() && SpendsProgram(s, h, k, 0) && SettlementRan(s, h, k, 0)
    ensures CabooseIs(s, h[k]) && h[k].tx.inputs[0].prevout.vout == 0 && |ClaimOf(h[k]).values| == 320
    ensures h[k].tx.outputs[0].amount == Excess(Value(ContextAt(s, h, k, 0), 0), Payout(ClaimOf(h[k]).values).amount)
    ensures |ClaimOf(h[k]).bridgeId| == 32 && ParentAccepted(s.t, ContextAt(s, h, k, 0), ClaimOf(h[k]))
  {
    hide ParentAccepted, SettlementStatement, InputIs, MaskedDigest, WellFormed, Covenant, SettlementOutputs, Payout;
    hide SpentOutputs, SpentOutput, CabooseSpk, SettlementRan, Spks, ClaimOf;
    var c, x := ContextAt(s, h, k, 0), ClaimOf(h[k]);
    ContextFormed(s, h, k, 0);
    CabooseLength(s.t.sha, x.newState);
    SettlementRead(s, h, k);
    SettlementOutputsShape(s.t, c, x.values, CabooseSpk(s.t.sha, x.newState));
    SpentFirst(s, h, k);
    assert h[k].spends[0].BySettlement? by { RanIsSettlement(s, h, k); }
  }

  lemma RanIsSettlement(s: System, h: History, k: nat)
    requires s.t.Valid() && Ordinary(s, h, k) && SettlementRan(s, h, k, 0)
    ensures h[k].spends[0].BySettlement?
  {
  }

  lemma SettlementStepped(s: System, h: History, k: nat)
    requires Confirmed(s, h) && CollisionFree(s, h) && SpendsProgram(s, h, k, 0) && SettlementRan(s, h, k, 0)
    ensures Stepped(s, h, k)
  {
    hide Confirmed, CollisionFree, ParentAccepted, Proved, After, SettlementRan, ClaimOf, SpentOutput, RootOf;
    hide CabooseIs;
    hide Stepped, StatementOf, Deployed, SettlementStatement, Payout;
    ConfirmedValid(s, h);
    SettlementCaboose(s, h, k);
    SettlementMeets(s, h, k);
    SettlementHeaderIs(ContextAt(s, h, k, 0), ClaimOf(h[k]));
    assert h[k].spends[0].BySettlement? by { RanIsSettlement(s, h, k); }
    MakeStep(s, h, k, SettlementDemand(s, h, k));
  }

  /** Every confirmed spend of the program is a step, made by input 0. */
  lemma ProgramSpendStepped(s: System, h: History, k: nat, i: nat)
    requires Confirmed(s, h) && CollisionFree(s, h) && SpendsProgram(s, h, k, i)
    ensures i == 0 && s.t.Valid() && Stepped(s, h, k)
  {
    hide Confirmed, CollisionFree, Stepped, CollectionRan, SettlementRan, Deployed, SpentOutput, SpentOutputs;
    hide EmptyAccounts;
    ConfirmedValid(s, h);
    ProgramSpendFirst(s, h, k, i);
    ProgramSpendRan(s, h, k, 0);
    if CollectionRan(s, h, k, 0) {
      CollectionStepped(s, h, k);
    } else {
      SettlementStepped(s, h, k);
    }
  }
}
