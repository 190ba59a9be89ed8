// The two bridge programs: built call by call, and characterized on every witness stack. A program's prefix either
// fails or hands the untouched base stack to the verifier, and it succeeds exactly on the transactions described
// by `CollectionAccepted` and `SettlementAccepted`.
module BridgePrograms {
  import opened Bytes
  import opened Transactions
  import opened Statements
  import opened Script
  import opened Building
  import opened Calls
  import opened BuilderClass
  import opened TxContext
  import opened Linearization
  import opened Deposit
  import opened DepositLeaf
  import opened BridgeHead
  import opened BridgeOutputs
  import opened BridgeDeposits
  import opened BridgeStatement
  import opened BridgeDigest

  const COLLECTION_NAMES: seq<Name> :=
    [Parent, Ancestor, OldState, NewState, BridgeId, RecipientA, RefundA, RecipientB, RefundB, PublicValues]
  const SETTLEMENT_NAMES: seq<Name> := [Parent, Ancestor, OldState, NewState, BridgeId, PublicValues]

  /** Names bound by the opening checks, by the deposits and by the head. */
  const OPENED: seq<Name> := [PrevoutsOf, AmountsOf, SpksOf, ProgramSpk, NewCaboose, ExpectedOutputs]
  const LEAVES: seq<Name> := [DepositLeafBytes, DepositLeafBytes]
  const HEAD: seq<Name> := [OldCaboose, OldRoot]

  /** The names a collection can use at the start of each later part. */
  lemma CollectionNamesKnown(n1: seq<Name>, leaves: seq<Name>, head: seq<Name>)
    requires n1 == COLLECTION_NAMES + OPENED && OldRoot in head
    ensures {RecipientA, RefundA, RecipientB, RefundB, BridgeId, ProgramSpk, SpksOf} <= (set n | n in n1)
    ensures {Parent, Ancestor, OldState, NewState, BridgeId, PrevoutsOf, AmountsOf,
             ProgramSpk} <= (set n | n in n1 + leaves)
    ensures {PublicValues, BridgeId, PrevoutsOf, OldRoot, NewState, AmountsOf, RecipientA,
             RecipientB} <= (set n | n in n1 + leaves + head)
    ensures |n1| == 16 && PublicValues in n1 + leaves + head
  {
    OpenedNamesKnown();
    hide COLLECTION_NAMES, OPENED;
    Within(n1, leaves);
    Within(n1 + leaves, head);
  }

  lemma Within(a: seq<Name>, b: seq<Name>)
    ensures forall n :: n in a || n in b ==> n in a + b
  {
  }

  lemma OpenedNamesKnown()
    ensures var n1 := COLLECTION_NAMES + OPENED;
            && Parent in n1 && Ancestor in n1 && OldState in n1 && NewState in n1 && BridgeId in n1 && RecipientA in n1
            && RefundA in n1 && RecipientB in n1 && RefundB in n1 && PublicValues in n1 && PrevoutsOf in n1
            && AmountsOf in n1 && SpksOf in n1 && ProgramSpk in n1 && |n1| == 16
  {
    Within(COLLECTION_NAMES, OPENED);
  }

  lemma SettlementNamesKnown()
    ensures var n1 := SETTLEMENT_NAMES + OPENED; var n2 := n1 + HEAD;
            && |n2| == 14
            && {Parent, Ancestor, OldState, NewState, BridgeId, PrevoutsOf, AmountsOf, ProgramSpk} <= (set n | n in n1)
            && {PublicValues, BridgeId, PrevoutsOf, OldRoot, NewState, AmountsOf} <= (set n | n in n2)
            && PublicValues in n2
  {
  }

  // ---------- collection: calls ----------

  function OpeningCalls(p: Prog, t: Terms): Prog {
    CollectionOutputsCalls(RequireSizeCalls(IndexZeroCalls(CollectionContextCalls(p, t.sponsor)), BridgeId, 32), t)
  }

  function DepositsCalls(p: Prog, t: Terms): Prog
    requires |t.keys| == 3
  {
    DepositCalls(DepositCalls(p, t, 1, RecipientA, RefundA), t, 2, RecipientB, RefundB)
  }

  function CollectionCheckCalls(p: Prog, t: Terms): Prog
    requires |t.keys| == 3
  {
    DigestCalls(BindCollectionCalls(ParentCalls(DepositsCalls(OpeningCalls(p, t), t), t), t))
  }

  function CollectionProg(t: Terms): Prog
    requires |t.keys| == 3
  {
    DropCalls(CollectionCheckCalls(Nil, t), 20)
  }

  method CheckOpening(b: Builder, t: Terms)
    requires b.Valid() && NewState in b.names && BridgeId in b.names
    modifies b
    ensures b.Valid()
    ensures b.names == old(b.names) + OPENED
    ensures b.at == old(b.at).(prog := OpeningCalls(old(b.at).prog, t))
  {
    hide CollectionContextCalls, IndexZeroCalls, RequireSizeCalls, CollectionOutputsCalls;
    CollectionContext(b, t.sponsor);
    CheckIndexZero(b);
    b.RequireSize(BridgeId, 32);
    ExpectedCollectionOutputs(b, t);
  }

  method CheckDeposits(b: Builder, t: Terms)
    requires b.Valid() && |t.keys| == 3
    requires {RecipientA, RefundA, RecipientB, RefundB, BridgeId, ProgramSpk, SpksOf} <= (set n | n in b.names)
    modifies b
    ensures b.Valid() && b.names == old(b.names) + LEAVES
    ensures b.at == old(b.at).(prog := DepositsCalls(old(b.at).prog, t))
  {
    hide DepositCalls;
    AuthenticateDeposit(b, t, 1, RecipientA, RefundA);
    AuthenticateDeposit(b, t, 2, RecipientB, RefundB);
  }

  method CheckCollection(b: Builder, t: Terms)
    requires b.Valid() && |t.keys| == 3 && b.names == COLLECTION_NAMES
    modifies b
    ensures b.Valid() && |b.names| == 20
    ensures b.at == old(b.at).(prog := CollectionCheckCalls(old(b.at).prog, t))
  {
    hide OpeningCalls, DepositsCalls, ParentCalls, BindCollectionCalls, DigestCalls;
    CheckOpening(b, t);
    assert b.names == COLLECTION_NAMES + OPENED;
    CollectionNamesKnown(COLLECTION_NAMES + OPENED, LEAVES, HEAD);
    CheckDeposits(b, t);
    assert b.names == COLLECTION_NAMES + OPENED + LEAVES;
    AuthenticateParent(b, t);
    assert b.names == COLLECTION_NAMES + OPENED + LEAVES + HEAD;
    BindCollectionStatement(b, t);
    BindStatementDigest(b);
  }

  /** `build_collection_program`: refused constants raise, otherwise the checked prefix is followed by the verifier. */
  method BuildCollectionProgram(verifier: bytes, t: Terms) returns (program: Option<bytes>)
    ensures program.Some? <==> verifier != [] && t.Valid()
    ensures program.Some? ==> program.value == CollectionPrefix(t) + verifier
    ensures program.Some?
            ==> Legal(CollectionProg(t), COLLECTION_NAMES) && NamesAfter(CollectionProg(t), COLLECTION_NAMES) == []
  {
    hide CollectionCheckCalls, DropCalls, Emit, Legal, NamesAfter, Assemble;
    if verifier == [] || !t.Valid() {
      return None;
    }
    var b := new Builder(COLLECTION_NAMES);
    CheckCollection(b, t);
    var prefix := b.FinishPrefix();
    assert [] + Emit(CollectionProg(t), COLLECTION_NAMES) == Emit(CollectionProg(t), COLLECTION_NAMES);
    program := Some(prefix + verifier);
  }

  function CollectionPrefix(t: Terms): bytes
    requires |t.keys| == 3
  {
    Assemble(Emit(CollectionProg(t), COLLECTION_NAMES))
  }

  // ---------- settlement: calls ----------

  function SettlementOpeningCalls(p: Prog, t: Terms): Prog {
    SettlementOutputsCalls(RequireSizeCalls(SettlementContextCalls(p, t.sponsor), BridgeId, 32), t)
  }

  function SettlementCheckCalls(p: Prog, t: Terms): Prog {
    DigestCalls(BindSettlementCalls(ParentCalls(SettlementOpeningCalls(p, t), t)))
  }

  function SettlementProg(t: Terms): Prog { DropCalls(SettlementCheckCalls(Nil, t), 14) }

  function SettlementPrefix(t: Terms): bytes { Assemble(Emit(SettlementProg(t), SETTLEMENT_NAMES)) }

  method CheckSettlementOpening(b: Builder, t: Terms)
    requires b.Valid() && {NewState, BridgeId, PublicValues} <= (set n | n in b.names)
    modifies b
    ensures b.Valid()
    ensures b.names == old(b.names) + OPENED
    ensures b.at == old(b.at).(prog := SettlementOpeningCalls(old(b.at).prog, t))
  {
    hide SettlementContextCalls, RequireSizeCalls, SettlementOutputsCalls;
    SettlementContext(b, t.sponsor);
    b.RequireSize(BridgeId, 32);
    ExpectedSettlementOutputs(b, t);
  }

  method CheckSettlement(b: Builder, t: Terms)
    requires b.Valid() && b.names == SETTLEMENT_NAMES
    modifies b
    ensures b.Valid() && |b.names| == 14
    ensures b.at == old(b.at).(prog := SettlementCheckCalls(old(b.at).prog, t))
  {
    hide SettlementOpeningCalls, ParentCalls, BindSettlementCalls, DigestCalls;
    CheckSettlementOpening(b, t);
    assert b.names == SETTLEMENT_NAMES + OPENED;
    SettlementNamesKnown();
    AuthenticateParent(b, t);
    assert b.names == SETTLEMENT_NAMES + OPENED + HEAD;
    BindSettlementStatement(b);
    BindStatementDigest(b);
  }

  method BuildSettlementProgram(verifier: bytes, t: Terms) returns (program: Option<bytes>)
    ensures program.Some? <==> verifier != [] && |t.sponsor| == 34 && |t.genesisRoot| == 32
    ensures program.Some? ==> program.value == SettlementPrefix(t) + verifier
    ensures program.Some?
            ==> Legal(SettlementProg(t), SETTLEMENT_NAMES) && NamesAfter(SettlementProg(t), SETTLEMENT_NAMES) == []
  {
    hide SettlementCheckCalls, DropCalls, Emit, Legal, NamesAfter, Assemble;
    if verifier == [] || |t.sponsor| != 34 || |t.genesisRoot| != 32 {
      return None;
    }
    var b := new Builder(SETTLEMENT_NAMES);
    CheckSettlement(b, t);
    var prefix := b.FinishPrefix();
    assert [] + Emit(SettlementProg(t), SETTLEMENT_NAMES) == Emit(SettlementProg(t), SETTLEMENT_NAMES);
    program := Some(prefix + verifier);
  }

  // ---------- what carries through the calls ----------

  /** `e` binds `k` more values above everything in `f`. */
  predicate Grown(e: Env, f: Env, k: nat) {
    BaseOf(e) == BaseOf(f) && |NamesOf(e)| == |NamesOf(f)| + k && Flat(f) <= Flat(e)
  }

  lemma GrownBind(e: Env, f: Env, k: nat, n: Name, v: bytes)
    requires Grown(e, f, k)
    ensures Grown(Bind(e, n, v), f, k + 1)
  {
    BindShape(e, n, v);
  }

  lemma GrownContexted(e: Env, c: Context)
    ensures Grown(Contexted(e, c), e, 4)
  {
    hide Grown, Prevouts, Amounts, Spks, SpkOf;
    assert Grown(e, e, 0) by { GrownSelf(e); }
    var e1 := Bind(e, PrevoutsOf, Prevouts(c));
    var e2 := Bind(e1, AmountsOf, Amounts(c));
    GrownBind(e, e, 0, PrevoutsOf, Prevouts(c));
    GrownBind(e1, e, 1, AmountsOf, Amounts(c));
    GrownBind(e2, e, 2, SpksOf, Spks(c));
    GrownBind(Read(e, c), e, 3, ProgramSpk, SpkOf(c));
  }

  lemma GrownSelf(e: Env)
    ensures Grown(e, e, 0)
  {
  }

  lemma GrownChecked(e: Env, f: Env, k: nat, caboose: bytes, outputs: bytes)
    requires Grown(e, f, k)
    ensures Grown(Checked(e, caboose, outputs), f, k + 2)
  {
    hide Grown;
    GrownBind(e, f, k, NewCaboose, caboose);
    GrownBind(Bind(e, NewCaboose, caboose), f, k + 1, ExpectedOutputs, outputs);
  }

  lemma GrownRooted(e: Env, f: Env, k: nat, w: World, x: Claim)
    requires Grown(e, f, k)
    ensures Grown(Rooted(e, w, x), f, k + 2)
  {
    hide Grown, CabooseSpk, RootIn;
    GrownBind(e, f, k, OldCaboose, CabooseSpk(w.sha, Lookup(e, OldState)));
    GrownBind(WithCaboose(e, w), f, k + 1, OldRoot, RootIn(x));
  }

  /** The witness values are bound as the claim and the two tickets say. */
  predicate Claims(e: Env, x: Claim, a: Ticket, b: Ticket) {
    && Lookup(e, Parent) == x.parent && Lookup(e, Ancestor) == x.ancestor && Lookup(e, OldState) == x.oldState
    && Lookup(e, NewState) == x.newState && Lookup(e, BridgeId) == x.bridgeId && Lookup(e, PublicValues) == x.values
    && TicketsIn(e, a, b)
  }

  predicate TicketsIn(e: Env, a: Ticket, b: Ticket) {
    && Lookup(e, RecipientA) == a.recipient && Lookup(e, RefundA) == a.refund
    && Lookup(e, RecipientB) == b.recipient && Lookup(e, RefundB) == b.refund
  }

  predicate ShowsAll(e: Env, c: Context, x: Claim, a: Ticket, b: Ticket) { Shows(e, c, x) && TicketsIn(e, a, b) }

  lemma ContextedShows(e: Env, c: Context, x: Claim, a: Ticket, b: Ticket)
    requires Claims(e, x, a, b)
    ensures ShowsAll(Contexted(e, c), c, x, a, b)
  {
    hide Lookup, Contexted, Prevouts, Amounts, Spks, SpkOf;
    forall n | n in {Parent, Ancestor, OldState, NewState, BridgeId, PublicValues, RecipientA, RefundA, RecipientB,
                     RefundB}
      ensures Lookup(Contexted(e, c), n) == Lookup(e, n)
    {
      LookupContexted(e, c, n);
    }
    LookupContexted(e, c, PrevoutsOf);
    LookupContexted(e, c, AmountsOf);
    LookupContexted(e, c, SpksOf);
    LookupContexted(e, c, ProgramSpk);
  }

  lemma ShowsAllBind(e: Env, c: Context, x: Claim, a: Ticket, b: Ticket, n: Name, v: bytes)
    requires ShowsAll(e, c, x, a, b) && Scratch(n)
    ensures ShowsAll(Bind(e, n, v), c, x, a, b)
  {
    hide Shows, Prevouts, Amounts, Spks, SpkOf;
    ShowsBind(e, c, x, n, v);
  }

  lemma CheckedShows(e: Env, c: Context, x: Claim, a: Ticket, b: Ticket, caboose: bytes, outputs: bytes)
    requires ShowsAll(e, c, x, a, b)
    ensures ShowsAll(Checked(e, caboose, outputs), c, x, a, b)
  {
    hide ShowsAll;
    ShowsAllBind(e, c, x, a, b, NewCaboose, caboose);
    ShowsAllBind(Bind(e, NewCaboose, caboose), c, x, a, b, ExpectedOutputs, outputs);
  }

  lemma RootedShowsAll(e: Env, w: World, x: Claim, a: Ticket, b: Ticket)
    requires ShowsAll(e, w.ctx, x, a, b)
    ensures ShowsAll(Rooted(e, w, x), w.ctx, x, a, b) && Lookup(Rooted(e, w, x), OldRoot) == RootIn(x)
  {
    hide ShowsAll, CabooseSpk, RootIn;
    ShowsAllBind(e, w.ctx, x, a, b, OldCaboose, CabooseSpk(w.sha, Lookup(e, OldState)));
    ShowsAllBind(WithCaboose(e, w), w.ctx, x, a, b, OldRoot, RootIn(x));
  }

  lemma CovenantParts(c: Context, ins: byte, outs: byte, sponsor: bytes)
    requires WellFormed(c) && Covenant(c, ins, outs, sponsor)
    ensures |c.spent| == |c.tx.inputs| == ins && |c.tx.outputs| == outs && ins > 0 && |SpkOf(c)| == 34
            && AllNative(c.spent)
    ensures At(Prevouts(c), 32, Zeros(4))
  {
    hide Prevouts, Spks;
    FirstPrevout(c);
  }

  /** Everything the head checks rely on. */
  lemma ReadyFrom(e: Env, c: Context, x: Claim, ins: byte, outs: byte, sponsor: bytes)
    requires WellFormed(c) && Covenant(c, ins, outs, sponsor) && Shows(e, c, x) && |x.bridgeId| == 32
    ensures Ready(e, c, x)
  {
    hide Shows, Prevouts, Amounts, Spks;
    CovenantParts(c, ins, outs, sponsor);
    AmountAt(c, 0);
    PrevoutAt(c, 0);
  }

  lemma AcceptedRoots(t: Terms, c: Context, x: Claim)
    requires ParentAccepted(t, c, x)
    ensures |RootIn(x)| == 32 && |x.newState| == 73
  {
    hide Pays, LinksTo, AncestorPays, PlainShape, SpkOf, AmountOf, Prevouts;
  }

  lemma AuthenticatedFrom(t: Terms, e: Env, w: World, x: Claim)
    requires Ready(e, w.ctx, x) && ParentAccepted(t, w.ctx, x)
    ensures Authenticated(Rooted(e, w, x), w.ctx, x)
  {
    hide Ready, ParentAccepted, RootIn, CabooseSpk;
    ReadyCaboose(e, w, x);
    ReadyBind(WithCaboose(e, w), w.ctx, x, OldRoot, RootIn(x));
    AcceptedRoots(t, w.ctx, x);
    LookupBind(WithCaboose(e, w), OldRoot, RootIn(x), OldRoot);
  }

  lemma SecondKept(e: Env, f: Env, k: nat)
    requires Grown(e, f, k) && |Flat(f)| >= 2
    ensures |Flat(e)| >= 2 && Flat(e)[1] == Flat(f)[1]
  {
  }

  // ---------- what a collection is ----------

  /** The outputs, the context and the identity's size. */
  predicate CollectionOpened(t: Terms, w: World, x: Claim) {
    && Covenant(w.ctx, 4, 3, t.sponsor) && |x.bridgeId| == 32 && Value(w.ctx, 3) >= SPONSORED
    && w.ctx.tx.outputs == CollectionOutputs(t, w.ctx, CabooseSpk(w.sha, x.newState))
  }

  /** The transactions a collection program accepts, for a claim, two deposit tickets and a public input. */
  predicate CollectionAccepted(t: Terms, w: World, x: Claim, a: Ticket, b: Ticket, item: bytes)
    requires |t.keys| == 3
  {
    && CollectionOpened(t, w, x)
    && Deposited(t, w, 1, x.bridgeId, a) && Deposited(t, w, 2, x.bridgeId, b)
    && ParentAccepted(t, w.ctx, x)
    && x.values == CollectionStatement(t, w.ctx, x, a.recipient, b.recipient).Encode()
    && InputIs(item, MaskedDigest(w.sha, x.values))
  }

  function CollectionOpenedEnv(t: Terms, e: Env, w: World, x: Claim): Env {
    var caboose := CabooseSpk(w.sha, x.newState);
    Checked(Contexted(e, w.ctx), caboose, CollectionOutputBytes(t, w.ctx, caboose))
  }

  lemma OpeningStep(t: Terms, e: Env, w: World, x: Claim, a: Ticket, b: Ticket)
    requires WellFormed(w.ctx) && t.Valid() && Claims(e, x, a, b)
    ensures Reaches(OpeningCalls(Nil, t), e, w, CollectionOpenedEnv(t, e, w, x), CollectionOpened(t, w, x))
    ensures ShowsAll(CollectionOpenedEnv(t, e, w, x), w.ctx, x, a, b) && Grown(CollectionOpenedEnv(t, e, w, x), e, 6)
  {
    hide Reaches, CollectionContextCalls, IndexZeroCalls, RequireSizeCalls, CollectionOutputsCalls, CollectionOutputs;
    hide CollectionOutputBytes, Checked, Contexted, Lookup, Covenant, ShowsAll, Claims, Grown, Value, CabooseSpk;
    var c, caboose := w.ctx, CabooseSpk(w.sha, x.newState);
    var e1 := Contexted(e, c);
    ContextedShows(e, c, x, a, b);
    ShowsAllParts(e1, c, x, a, b);
    NilStep(e, w);
    CollectionContextStep(Nil, t.sponsor, e, w, e, true);
    var k1 := Covenant(c, 4, 3, t.sponsor);
    var p1 := IndexZeroCalls(CollectionContextCalls(Nil, t.sponsor));
    RequireSizeStep(p1, BridgeId, 32, e, w, e1, k1);
    if k1 {
      CovenantParts(c, 4, 3, t.sponsor);
    }
    CollectionOutputsStep(RequireSizeCalls(p1, BridgeId, 32), t, e, w, e1, k1 && |x.bridgeId| == 32, x);
    CheckedShows(e1, c, x, a, b, caboose, CollectionOutputBytes(t, c, caboose));
    GrownContexted(e, c);
    GrownChecked(e1, e, 4, caboose, CollectionOutputBytes(t, c, caboose));
  }

  lemma ShowsAllParts(e: Env, c: Context, x: Claim, a: Ticket, b: Ticket)
    requires ShowsAll(e, c, x, a, b)
    ensures Shows(e, c, x) && TicketsIn(e, a, b) && Lookup(e, BridgeId) == x.bridgeId
    ensures Lookup(e, SpksOf) == Spks(c) && Lookup(e, ProgramSpk) == SpkOf(c)
    ensures Ticket(Lookup(e, RecipientA), Lookup(e, RefundA)) == a
            && Ticket(Lookup(e, RecipientB), Lookup(e, RefundB)) == b
  {
  }

  function DepositedEnv(t: Terms, e: Env, w: World, x: Claim, a: Ticket, b: Ticket): Env
    requires |t.keys| == 3
  {
    var spk := SpkOf(w.ctx);
    Bind(Bind(e, DepositLeafBytes, RebuiltLeaf(t, spk, x.bridgeId, a)), DepositLeafBytes,
         RebuiltLeaf(t, spk, x.bridgeId, b))
  }

  lemma DepositsStep(p: Prog, t: Terms, e0: Env, w: World, e: Env, ok: bool, x: Claim, a: Ticket, b: Ticket, k: nat)
    requires Reaches(p, e0, w, e, ok) && WellFormed(w.ctx) && t.Valid() && t.sha == w.sha
    requires ShowsAll(e, w.ctx, x, a, b) && Grown(e, e0, k)
    requires ok ==> Covenant(w.ctx, 4, 3, t.sponsor) && |x.bridgeId| == 32
    ensures Reaches(DepositsCalls(p, t), e0, w, DepositedEnv(t, e, w, x, a, b),
                    ok && Deposited(t, w, 1, x.bridgeId, a) && Deposited(t, w, 2, x.bridgeId, b))
    ensures ShowsAll(DepositedEnv(t, e, w, x, a, b), w.ctx, x, a, b) && Grown(DepositedEnv(t, e, w, x, a, b), e0, k + 2)
  {
    hide Reaches, DepositCalls, RebuiltLeaf, ShowsAll, Shows, Grown, Covenant, Deposited, Lookup, SpkOf, Spks;
    var c := w.ctx;
    var la, lb := RebuiltLeaf(t, SpkOf(c), x.bridgeId, a), RebuiltLeaf(t, SpkOf(c), x.bridgeId, b);
    var e1 := Bind(e, DepositLeafBytes, la);
    if ok {
      CovenantParts(c, 4, 3, t.sponsor);
    }
    ShowsAllParts(e, c, x, a, b);
    DepositStep(p, t, 1, RecipientA, RefundA, e0, w, e, ok);
    ShowsAllBind(e, c, x, a, b, DepositLeafBytes, la);
    ShowsAllParts(e1, c, x, a, b);
    DepositStep(DepositCalls(p, t, 1, RecipientA, RefundA), t, 2, RecipientB, RefundB, e0, w, e1,
                ok && Deposited(t, w, 1, x.bridgeId, a));
    ShowsAllBind(e1, c, x, a, b, DepositLeafBytes, lb);
    GrownBind(e, e0, k, DepositLeafBytes, la);
    GrownBind(e1, e0, k + 1, DepositLeafBytes, lb);
  }

  lemma HeadStep(p: Prog, t: Terms, e0: Env, w: World, e: Env, ok: bool, x: Claim, a: Ticket, b: Ticket, k: nat,
                 ins: byte, outs: byte)
    requires Reaches(p, e0, w, e, ok) && WellFormed(w.ctx) && t.Valid() && t.sha == w.sha
    requires ShowsAll(e, w.ctx, x, a, b) && Grown(e, e0, k)
    requires ok ==> Covenant(w.ctx, ins, outs, t.sponsor) && |x.bridgeId| == 32
    ensures Reaches(ParentCalls(p, t), e0, w, Rooted(e, w, x), ok && ParentAccepted(t, w.ctx, x))
    ensures ShowsAll(Rooted(e, w, x), w.ctx, x, a, b) && Grown(Rooted(e, w, x), e0, k + 2)
    ensures StatementShown(Rooted(e, w, x), w.ctx, x)
    ensures ok && ParentAccepted(t, w.ctx, x) ==> Authenticated(Rooted(e, w, x), w.ctx, x)
  {
    hide Reaches, ParentCalls, ShowsAll, Shows, Grown, Covenant, Lookup, ParentAccepted, Rooted, Authenticated;
    hide StatementShown;
    hide Prevouts, At;
    var c := w.ctx;
    ShowsAllParts(e, c, x, a, b);
    if ok {
      CovenantParts(c, ins, outs, t.sponsor);
      ReadyFrom(e, c, x, ins, outs, t.sponsor);
    }
    ParentStep(p, t, e0, w, e, ok, x);
    RootedShowsAll(e, w, x, a, b);
    ShowsAllParts(Rooted(e, w, x), c, x, a, b);
    ShownStatement(Rooted(e, w, x), c, x);
    GrownRooted(e, e0, k, w, x);
    if ok && ParentAccepted(t, c, x) {
      AuthenticatedFrom(t, e, w, x);
    }
  }

  /** Dropping every tracked name leaves the base. */
  lemma FinishStep(p: Prog, k: nat, e0: Env, w: World, e: Env, ok: bool)
    requires Reaches(p, e0, w, e, ok) && |NamesOf(e)| == k && BaseOf(e) == BaseOf(e0)
    ensures Reaches(DropCalls(p, k), e0, w, Base(BaseOf(e0)), ok)
  {
    hide Reaches, DropCalls;
    DropAllStep(p, k, e0, w, e, ok);
    UnbindAll(e);
  }

  /** From any bindings of the ten witness names, the collection program accepts exactly `CollectionAccepted` and
      leaves the base as it was. */
  lemma CollectionMeans(t: Terms, e: Env, w: World, x: Claim, a: Ticket, b: Ticket)
    requires WellFormed(w.ctx) && t.Valid() && t.sha == w.sha && Claims(e, x, a, b) && |NamesOf(e)| == 10
             && |Flat(e)| >= 2
    ensures Reaches(CollectionProg(t), e, w, Base(BaseOf(e)), CollectionAccepted(t, w, x, a, b, Flat(e)[1]))
  {
    hide Reaches, OpeningCalls, DepositsCalls, ParentCalls, BindCollectionCalls, DigestCalls, DropCalls;
    hide CollectionOpenedEnv;
    hide DepositedEnv, Rooted, ShowsAll, Grown, Deposited, ParentAccepted, InputIs, Claims, Lookup, Covenant;
    hide StatementShown;
    hide Authenticated, CollectionStatement, Flat;
    var c := w.ctx;
    var e1, p1, k1 := CollectionOpenedEnv(t, e, w, x), OpeningCalls(Nil, t), CollectionOpened(t, w, x);
    OpeningStep(t, e, w, x, a, b);
    var e2, p2 := DepositedEnv(t, e1, w, x, a, b), DepositsCalls(p1, t);
    var k2 := k1 && Deposited(t, w, 1, x.bridgeId, a) && Deposited(t, w, 2, x.bridgeId, b);
    DepositsStep(p1, t, e, w, e1, k1, x, a, b, 6);
    var e3, p3, k3 := Rooted(e2, w, x), ParentCalls(p2, t), k2 && ParentAccepted(t, c, x);
    HeadStep(p2, t, e, w, e2, k2, x, a, b, 8, 4, 3);
    ShowsAllParts(e3, c, x, a, b);
    if k3 {
      CovenantParts(c, 4, 3, t.sponsor);
    }
    CollectionEndStep(p3, t, e, w, e3, k3, x, a, b);
    DepositedRecipient(t, w, 1, x.bridgeId, a);
    DepositedRecipient(t, w, 2, x.bridgeId, b);
  }

  lemma DepositedRecipient(t: Terms, w: World, index: nat, bridgeId: bytes, k: Ticket)
    requires |t.keys| == 3
    ensures Deposited(t, w, index, bridgeId, k) ==> Val(k.recipient) < 3
  {
    hide TapSpk, LeafBytes;
  }

  lemma GrownParts(e: Env, f: Env, k: nat)
    requires Grown(e, f, k)
    ensures BaseOf(e) == BaseOf(f) && |NamesOf(e)| == |NamesOf(f)| + k
  {
  }

  lemma CollectionEndStep(p: Prog, t: Terms, e0: Env, w: World, e: Env, ok: bool, x: Claim, a: Ticket, b: Ticket)
    requires Reaches(p, e0, w, e, ok) && WellFormed(w.ctx) && t.Valid() && t.sha == w.sha
    requires ShowsAll(e, w.ctx, x, a, b) && Grown(e, e0, 10) && StatementShown(e, w.ctx, x)
    requires |NamesOf(e0)| == 10 && |Flat(e0)| >= 2
    requires ok ==> Authenticated(e, w.ctx, x) && |w.ctx.tx.inputs| == 4
    ensures Reaches(DropCalls(DigestCalls(BindCollectionCalls(p, t)), 20), e0, w, Base(BaseOf(e0)),
                    && ok && Val(a.recipient) < 3 && Val(b.recipient) < 3
                    && x.values == CollectionStatement(t, w.ctx, x, a.recipient, b.recipient).Encode()
                    && InputIs(Flat(e0)[1], MaskedDigest(w.sha, x.values)))
  {
    hide Reaches, BindCollectionCalls, DigestCalls, DropCalls, Rooted, Grown, InputIs, Lookup, ShowsAll;
    hide Authenticated, CollectionStatement, Flat, Val, MaskedDigest;
    ShowsAllParts(e, w.ctx, x, a, b);
    StatementShownValues(e, w.ctx, x);
    var p1 := BindCollectionCalls(p, t);
    var k1 := && ok && Val(a.recipient) < 3 && Val(b.recipient) < 3
              && x.values == CollectionStatement(t, w.ctx, x, a.recipient, b.recipient).Encode();
    BindCollectionStep(p, t, e0, w, e, ok, x);
    SecondKept(e, e0, 10);
    DigestStep(p1, e0, w, e, k1);
    GrownParts(e, e0, 10);
    FinishStep(DigestCalls(p1), 20, e0, w, e, k1 && InputIs(Flat(e0)[1], MaskedDigest(w.sha, x.values)));
  }

  lemma StatementShownValues(e: Env, c: Context, x: Claim)
    requires StatementShown(e, c, x)
    ensures Lookup(e, PublicValues) == x.values
  {
  }

  // ---------- what a settlement is ----------

  /** The context, the identity's size, and the four outputs with the payout the statement names. */
  predicate SettlementOpened(t: Terms, w: World, x: Claim) {
    && Covenant(w.ctx, 2, 4, t.sponsor) && |x.bridgeId| == 32 && |x.values| == 320
    && Payout(x.values).amount <= Value(w.ctx, 0) && Value(w.ctx, 1) >= SPONSORED
    && w.ctx.tx.outputs == SettlementOutputs(t, w.ctx, x.values, CabooseSpk(w.sha, x.newState))
  }

  predicate SettlementAccepted(t: Terms, w: World, x: Claim, item: bytes) {
    && SettlementOpened(t, w, x) && ParentAccepted(t, w.ctx, x)
    && x.values == SettlementStatement(w.ctx, x).Encode()
    && InputIs(item, MaskedDigest(w.sha, x.values))
  }

  function SettlementOpenedEnv(t: Terms, e: Env, w: World, x: Claim): Env {
    var caboose := CabooseSpk(w.sha, x.newState);
    Checked(Contexted(e, w.ctx), caboose, SettlementOutputBytes(t, w, x, caboose))
  }

  /** The opening as the program tests it, before the statement's length is known. */
  predicate SettlementRaw(t: Terms, w: World, x: Claim) {
    && Covenant(w.ctx, 2, 4, t.sponsor) && |x.bridgeId| == 32 && SettlementAmounts(w, x)
    && Concat(EncodeOut, w.ctx.tx.outputs) == SettlementOutputBytes(t, w, x, CabooseSpk(w.sha, x.newState))
  }

  lemma SettlementRawMeans(t: Terms, w: World, x: Claim)
    requires WellFormed(w.ctx) && t.Valid()
    ensures SettlementRaw(t, w, x) && |x.values| == 320 <==> SettlementOpened(t, w, x)
  {
    hide Covenant, Concat, SettlementOutputBytes, SettlementOutputs, PayoutRead, Paid, Payout, Value, CabooseSpk;
    if Covenant(w.ctx, 2, 4, t.sponsor) && |x.values| == 320 {
      CovenantParts(w.ctx, 2, 4, t.sponsor);
      CabooseLength(w.sha, x.newState);
      SettlementOutputsMean(t, w, x, CabooseSpk(w.sha, x.newState));
    }
  }

  lemma SettlementOpeningStep(t: Terms, e: Env, w: World, x: Claim, a: Ticket, b: Ticket)
    requires WellFormed(w.ctx) && t.Valid() && Claims(e, x, a, b)
    ensures Reaches(SettlementOpeningCalls(Nil, t), e, w, SettlementOpenedEnv(t, e, w, x), SettlementRaw(t, w, x))
    ensures ShowsAll(SettlementOpenedEnv(t, e, w, x), w.ctx, x, a, b) && Grown(SettlementOpenedEnv(t, e, w, x), e, 6)
  {
    hide Reaches, SettlementContextCalls, RequireSizeCalls, SettlementOutputsCalls, SettlementAmounts;
    hide SettlementOutputBytes, Checked, Contexted, Lookup, Covenant, ShowsAll, Claims, Grown, CabooseSpk, Concat;
    var c, caboose := w.ctx, CabooseSpk(w.sha, x.newState);
    var e1 := Contexted(e, c);
    ContextedShows(e, c, x, a, b);
    ShowsAllParts(e1, c, x, a, b);
    NilStep(e, w);
    SettlementContextStep(Nil, t.sponsor, e, w, e, true);
    var k1 := Covenant(c, 2, 4, t.sponsor);
    var p1 := SettlementContextCalls(Nil, t.sponsor);
    RequireSizeStep(p1, BridgeId, 32, e, w, e1, k1);
    if k1 {
      CovenantParts(c, 2, 4, t.sponsor);
    }
    SettlementOutputsRaw(RequireSizeCalls(p1, BridgeId, 32), t, e, w, e1, k1 && |x.bridgeId| == 32, x);
    CheckedShows(e1, c, x, a, b, caboose, SettlementOutputBytes(t, w, x, caboose));
    GrownContexted(e, c);
    GrownChecked(e1, e, 4, caboose, SettlementOutputBytes(t, w, x, caboose));
  }

  /** The settlement program, likewise. */
  lemma SettlementMeans(t: Terms, e: Env, w: World, x: Claim, a: Ticket, b: Ticket)
    requires WellFormed(w.ctx) && t.Valid() && t.sha == w.sha && Claims(e, x, a, b) && |NamesOf(e)| == 6
             && |Flat(e)| >= 2
    ensures Reaches(SettlementProg(t), e, w, Base(BaseOf(e)), SettlementAccepted(t, w, x, Flat(e)[1]))
  {
    hide Reaches, SettlementOpeningCalls, ParentCalls, BindSettlementCalls, DigestCalls, DropCalls, SettlementOpenedEnv;
    hide Rooted, ShowsAll, Grown, ParentAccepted, InputIs, Claims, Lookup, Covenant, StatementShown, SettlementRaw;
    hide Authenticated, SettlementStatement, Flat, SettlementOpened, Payout, MaskedDigest;
    var c := w.ctx;
    var e1, p1, k1 := SettlementOpenedEnv(t, e, w, x), SettlementOpeningCalls(Nil, t), SettlementRaw(t, w, x);
    SettlementOpeningStep(t, e, w, x, a, b);
    if k1 {
      RawCovenant(t, w, x);
    }
    var e2, p2, k2 := Rooted(e1, w, x), ParentCalls(p1, t), k1 && ParentAccepted(t, c, x);
    HeadStep(p1, t, e, w, e1, k1, x, a, b, 6, 2, 4);
    ShowsAllParts(e2, c, x, a, b);
    StatementShownValues(e2, c, x);
    var p3 := BindSettlementCalls(p2);
    var k3 := && k2 && |x.values| == 320 && Payout(x.values).amount <= Value(c, 0)
              && x.values == SettlementStatement(c, x).Encode();
    BindSettlementStep(p2, e, w, e2, k2, x);
    SecondKept(e2, e, 8);
    DigestStep(p3, e, w, e2, k3);
    GrownParts(e2, e, 8);
    FinishStep(DigestCalls(p3), 14, e, w, e2, k3 && InputIs(Flat(e)[1], MaskedDigest(w.sha, x.values)));
    SettlementRawMeans(t, w, x);
    OpenedParts(t, w, x);
  }

  lemma RawCovenant(t: Terms, w: World, x: Claim)
    requires SettlementRaw(t, w, x)
    ensures Covenant(w.ctx, 2, 4, t.sponsor) && |x.bridgeId| == 32
  {
  }

  lemma OpenedParts(t: Terms, w: World, x: Claim)
    ensures SettlementOpened(t, w, x) ==> |x.values| == 320 && Payout(x.values).amount <= Value(w.ctx, 0)
  {
    hide Covenant, SettlementOutputs;
  }
}
