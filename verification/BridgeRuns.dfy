// The bridge scripts as bytes on a witness stack: what a prefix followed by any verifier does with every stack.
module BridgeRuns {
  import opened Bytes
  import opened Transactions
  import opened Script
  import opened Building
  import opened Calls
  import opened TxContext
  import opened Deposit
  import opened DepositLeaf
  import opened BridgeHead
  import opened BridgeDeposits
  import opened BridgePrograms

  // ---------- a stack as bindings ----------

  /** The top items under their names, the rest as base. */
  function BindNames(items: seq<bytes>, names: seq<Name>): Env
    requires |names| <= |items|
  {
    if names == [] then Base(items)
    else Bind(BindNames(items[..|items| - 1], names[..|names| - 1]), names[|names| - 1], items[|items| - 1])
  }

  lemma {:induction false} BindNamesShape(items: seq<bytes>, names: seq<Name>)
    requires |names| <= |items|
    ensures var e := BindNames(items, names);
            Flat(e) == items && NamesOf(e) == names && BaseOf(e) == items[..|items| - |names|]
  {
    if names == [] {
      assert items[..|items|] == items;
    } else {
      BindNamesShape(items[..|items| - 1], names[..|names| - 1]);
    }
  }

  predicate Distinct(names: seq<Name>) { forall i, j :: 0 <= i < j < |names| ==> names[i] != names[j] }

  /** Among distinct names, the one at `i` reads the item at the same place. */
  lemma LookupIs(items: seq<bytes>, names: seq<Name>, i: nat, n: Name)
    requires |names| <= |items| && i < |names| && Distinct(names) && names[i] == n
    ensures Lookup(BindNames(items, names), n) == items[|items| - |names| + i]
  {
    BindNamesShape(items, names);
    LookupAt(BindNames(items, names), n);
  }

  lemma NamesDistinct()
    ensures Distinct(COLLECTION_NAMES) && Distinct(SETTLEMENT_NAMES)
  {
  }

  // ---------- any stack ----------

  predicate CompiledTo(p: Prog, names: seq<Name>) {
    Legal(p, names) && NamesAfter(p, names) == [] && |Assemble(Emit(p, names))| < U32
  }

  function Fresh(st: seq<bytes>): Machine { Machine(st, [], []) }

  /** A stack too short for the tracked names fails, whatever follows. */
  lemma ShortStackFails(p: Prog, names: seq<Name>, rest: bytes, st: seq<bytes>, w: World)
    requires CompiledTo(p, names) && |st| < |names|
    ensures RunBytes(Assemble(Emit(p, names)) + rest, Fresh(st), w) == None
  {
    hide Legal, NamesAfter, Emit, Assemble, Parse, Run;
    var code := Emit(p, names);
    EmitOpcodes(p, names);
    ShortPushes(code);
    ParseAssembled(code, rest);
    if Parse(rest).Some? {
      RunAppend(code, Parse(rest).value, Fresh(st), w);
      if Run(code, Fresh(st), w).Some? {
        Balanced(p, names, Fresh(st), w);
      }
    }
  }

  /** A program that reaches its base exactly when `ok` hands the base to whatever follows. */
  lemma PrefixRuns(p: Prog, names: seq<Name>, rest: bytes, st: seq<bytes>, w: World, ok: bool)
    requires CompiledTo(p, names) && |st| >= |names|
    requires Reaches(p, BindNames(st, names), w, Base(st[..|st| - |names|]), ok)
    ensures RunBytes(Assemble(Emit(p, names)) + rest, Fresh(st), w) ==
            if ok then RunBytes(rest, Fresh(st[..|st| - |names|]), w) else None
  {
    hide Legal, NamesAfter, Emit, Assemble, Parse, Run, Eval, BindNames;
    BindNamesShape(st, names);
    BytesRun(p, rest, BindNames(st, names), Fresh(st), w);
  }

  /** Once the program hands over, every opcode of the verifier without a meaning here does what `other` says. */
  lemma OtherOpcodes(code: byte, rest: bytes, m: Machine, w: World)
    requires Op(code).WellFormed() && !Known(code)
    ensures RunBytes([code] + rest, m, w) ==
            match w.other(code, m, w.ctx) case None => None case Some(m2) => RunBytes(rest, m2, w)
  {
    assert Encode(Op(code)) == [code];
    ParseEncoded(Op(code), rest);
  }

  /** One meaning of the others: remember the body and leave a true value. */
  function Remembering(code: byte, m: Machine, c: Context): Option<Machine> {
    if |m.stack| < 2 then None else Some(m.(stack := [[1]], memory := m.stack[|m.stack| - 2]))
  }

  /** So a verifier that opens like the deployed one, with a function definition, is not bound to fail. */
  lemma DefinitionMayAccept(body: bytes, id: bytes, base: seq<bytes>, w: World)
    requires |body| < U32 && |id| < U32
    ensures Accepted(RunBytes(Assemble([Data(body), Data(id), Op(0xbb)]), Fresh(base), w.(other := Remembering)))
  {
    var v, code := w.(other := Remembering), [Data(body), Data(id), Op(0xbb)];
    var m1 := Fresh(base + [body]);
    var m2 := Fresh(m1.stack + [id]);
    RunAssembled(code, Fresh(base), v);
    assert code[1..] == [Data(id), Op(0xbb)] && code[1..][1..] == [Op(0xbb)];
    assert Step(code[0], Fresh(base), v) == Some(m1) && Step(code[1], m1, v) == Some(m2);
    RunOne(Op(0xbb), m2, v);
    assert Step(Op(0xbb), m2, v) == Remembering(0xbb, m2, v.ctx);
    assert Run(code, Fresh(base), v) == Run(code[1..], m1, v) == Run([Op(0xbb)], m2, v);
    assert [1] != Zeros(1) by { assert Zeros(1) == [0]; }
  }

  // ---------- collection ----------

  function CollectionClaim(st: seq<bytes>): Claim
    requires |st| >= 10
  {
    var n := |st| - 10;
    Claim(st[n], st[n + 1], st[n + 2], st[n + 3], st[n + 4], st[n + 9])
  }

  function TicketA(st: seq<bytes>): Ticket
    requires |st| >= 10
  {
    Ticket(st[|st| - 5], st[|st| - 4])
  }

  function TicketB(st: seq<bytes>): Ticket
    requires |st| >= 10
  {
    Ticket(st[|st| - 3], st[|st| - 2])
  }

  lemma CollectionBound(st: seq<bytes>, names: seq<Name>)
    requires |st| >= 10 && |names| == 10 && Distinct(names)
    requires names[0] == Parent && names[1] == Ancestor && names[2] == OldState && names[3] == NewState
             && names[4] == BridgeId
    requires names[5] == RecipientA && names[6] == RefundA && names[7] == RecipientB && names[8] == RefundB
    requires names[9] == PublicValues
    ensures Claims(BindNames(st, names), CollectionClaim(st), TicketA(st), TicketB(st))
  {
    hide BindNames, Lookup, Distinct;
    LookupIs(st, names, 0, Parent);
    LookupIs(st, names, 1, Ancestor);
    LookupIs(st, names, 2, OldState);
    LookupIs(st, names, 3, NewState);
    LookupIs(st, names, 4, BridgeId);
    LookupIs(st, names, 5, RecipientA);
    LookupIs(st, names, 6, RefundA);
    LookupIs(st, names, 7, RecipientB);
    LookupIs(st, names, 8, RefundB);
    LookupIs(st, names, 9, PublicValues);
  }

  /** Whether a witness stack satisfies the collection prefix. */
  predicate CollectionWitness(t: Terms, w: World, st: seq<bytes>)
    requires |t.keys| == 3
  {
    |st| >= 10 && CollectionAccepted(t, w, CollectionClaim(st), TicketA(st), TicketB(st), st[1])
  }

  /** For every witness stack and every verifier script: the collection leaf fails, or the transaction is a
      collection as claimed and the verifier runs on exactly the items below the claim. */
  lemma CollectionRuns(t: Terms, verifier: bytes, st: seq<bytes>, w: World)
    requires WellFormed(w.ctx) && t.Valid() && t.sha == w.sha && CompiledTo(CollectionProg(t), COLLECTION_NAMES)
    ensures RunBytes(CollectionPrefix(t) + verifier, Fresh(st), w) ==
            if CollectionWitness(t, w, st) then RunBytes(verifier, Fresh(st[..|st| - 10]), w) else None
  {
    hide CollectionProg, CollectionAccepted, RunBytes, Emit, Assemble, BindNames, Claims, Legal, NamesAfter, Flat;
    hide CompiledTo, Distinct;
    if |st| < 10 {
      ShortStackFails(CollectionProg(t), COLLECTION_NAMES, verifier, st, w);
    } else {
      var e := BindNames(st, COLLECTION_NAMES);
      BindNamesShape(st, COLLECTION_NAMES);
      NamesDistinct();
      CollectionBound(st, COLLECTION_NAMES);
      CollectionMeans(t, e, w, CollectionClaim(st), TicketA(st), TicketB(st));
      PrefixRuns(CollectionProg(t), COLLECTION_NAMES, verifier, st, w, CollectionWitness(t, w, st));
    }
  }

  // ---------- settlement ----------

  function SettlementClaim(st: seq<bytes>): Claim
    requires |st| >= 6
  {
    var n := |st| - 6;
    Claim(st[n], st[n + 1], st[n + 2], st[n + 3], st[n + 4], st[n + 5])
  }

  lemma SettlementBound(st: seq<bytes>, names: seq<Name>)
    requires |st| >= 6 && |names| == 6 && Distinct(names)
    requires names[0] == Parent && names[1] == Ancestor && names[2] == OldState && names[3] == NewState
             && names[4] == BridgeId
    requires names[5] == PublicValues
    ensures var e := BindNames(st, names);
            Claims(e, SettlementClaim(st), Ticket(Lookup(e, RecipientA), Lookup(e, RefundA)),
                   Ticket(Lookup(e, RecipientB), Lookup(e, RefundB)))
  {
    hide BindNames, Lookup, Distinct;
    LookupIs(st, names, 0, Parent);
    LookupIs(st, names, 1, Ancestor);
    LookupIs(st, names, 2, OldState);
    LookupIs(st, names, 3, NewState);
    LookupIs(st, names, 4, BridgeId);
    LookupIs(st, names, 5, PublicValues);
  }

  predicate SettlementWitness(t: Terms, w: World, st: seq<bytes>) {
    |st| >= 6 && SettlementAccepted(t, w, SettlementClaim(st), st[1])
  }

  lemma SettlementRuns(t: Terms, verifier: bytes, st: seq<bytes>, w: World)
    requires WellFormed(w.ctx) && t.Valid() && t.sha == w.sha && CompiledTo(SettlementProg(t), SETTLEMENT_NAMES)
    ensures RunBytes(SettlementPrefix(t) + verifier, Fresh(st), w) ==
            if SettlementWitness(t, w, st) then RunBytes(verifier, Fresh(st[..|st| - 6]), w) else None
  {
    hide SettlementProg, SettlementAccepted, RunBytes, Emit, Assemble, BindNames, Claims, Legal, NamesAfter, Flat;
    hide CompiledTo, Distinct;
    if |st| < 6 {
      ShortStackFails(SettlementProg(t), SETTLEMENT_NAMES, verifier, st, w);
    } else {
      var e := BindNames(st, SETTLEMENT_NAMES);
      BindNamesShape(st, SETTLEMENT_NAMES);
      NamesDistinct();
      SettlementBound(st, SETTLEMENT_NAMES);
      SettlementMeans(t, e, w, SettlementClaim(st), Ticket(Lookup(e, RecipientA), Lookup(e, RefundA)),
                      Ticket(Lookup(e, RecipientB), Lookup(e, RefundB)));
      PrefixRuns(SettlementProg(t), SETTLEMENT_NAMES, verifier, st, w, SettlementWitness(t, w, st));
    }
  }

  // ---------- deployment ----------

  /** The two programs and the deposit body are what the builders emit, and none reaches 2^32 bytes. */
  predicate Deployed(t: Terms) {
    && t.Valid() && CompiledTo(CollectionProg(t), COLLECTION_NAMES) && CompiledTo(SettlementProg(t), SETTLEMENT_NAMES)
    && BodyCompiled() && LeafSize() < U32
  }

  /** Builds everything a deployment publishes; the only refusals are bad constants and scripts past 2^32 bytes. */
  method Deploy(verifier: bytes, t: Terms) returns (collection: Option<bytes>, settlement: Option<bytes>)
    ensures collection.Some? ==>
              && Deployed(t) && settlement.Some? && collection.value == CollectionPrefix(t) + verifier
              && settlement.value == SettlementPrefix(t) + verifier
    ensures collection.None? ==> verifier == [] || !t.Valid() || |CollectionPrefix(t) + verifier| >= U32
                                 || |SettlementPrefix(t) + verifier| >= U32 || LeafSize() >= U32
  {
    hide CollectionProg, SettlementProg, BodyCalls, Legal, NamesAfter, Emit, Assemble;
    var body := DepositCollectionBody();
    collection := BuildCollectionProgram(verifier, t);
    settlement := BuildSettlementProgram(verifier, t);
    if collection.Some? && (|collection.value| >= U32 || |settlement.value| >= U32 || 159 + |body| >= U32) {
      collection := None;
    }
  }
}
