// A ledger of confirmed transactions. Anyone may add any transaction; only spends of the program script and of
// Taproot leaves are constrained, by running the revealed script.
module Ledger {
  import opened Bytes
  import opened Transactions
  import opened Statements
  import opened Script
  import opened TxContext
  import opened Linearization
  import opened DepositLeaf
  import opened BridgeHead
  import opened BridgeDeposits
  import opened BridgeDigest
  import opened BridgeRuns
  import opened BridgePrograms
  import opened Accounts
  import opened Transitions

  /** A deployment together with the primitives left uninterpreted. */
  datatype System = System(t: Terms, verifier: bytes, spk: bytes, crypto: Crypto,
                           tweak: (bytes, bytes) -> Option<bytes>, sig: (bytes, bytes, Context) -> bool,
                           cut: (bytes, nat, nat) -> Option<bytes>,
                           other: (byte, Machine, Context) -> Option<Machine>) {
    /** Built by the builders, under one hash, from the root of three empty accounts with the deployment's keys. */
    ghost predicate Valid() {
      && Deployed(t) && crypto.sha == t.sha && TaprootScript(spk)
      && t.genesisRoot == RootOf(t.sha, EmptyAccounts(t.keys))
    }
  }

  function EmptyAccounts(keys: seq<bytes>): seq<Account>
    requires |keys| == 3
  {
    [Account(keys[0], 0, 0), Account(keys[1], 0, 0), Account(keys[2], 0, 0)]
  }

  /** How an input was spent: by a program leaf, by another revealed Taproot leaf, or otherwise. */
  datatype Spend = ByCollection(stack: seq<bytes>) | BySettlement(stack: seq<bytes>)
                 | ByLeaf(script: bytes, stack: seq<bytes>) | Otherwise

  /** A confirmed transaction, the entry each input's output comes from, the proof input behind its proof, and the
      deposit leaves its outputs were made from, by whoever made them. */
  datatype Entry = Entry(tx: Tx, coinbase: bool, source: seq<nat>, spends: seq<Spend>, annexes: seq<bytes>,
                         proof: Option<ProofInput>, leaves: seq<Leaf>)

  type History = seq<Entry>

  // ---------- resolving inputs ----------

  /** Input `i` of entry `k` names an output of an earlier entry. */
  predicate Resolves(s: System, h: History, k: nat, i: nat)
    requires k < |h| && i < |h[k].tx.inputs| && i < |h[k].source|
  {
    var o, f := h[k].tx.inputs[i].prevout, h[k].source[i];
    f < k && o.vout < |h[f].tx.outputs| && o.txid == Hash256(s.t.sha, h[f].tx.Encode())
  }

  predicate Formed(e: Entry) {
    && e.tx.WellFormed() && |e.tx.inputs| > 0
    && |e.source| == |e.tx.inputs| && |e.spends| == |e.tx.inputs| && |e.annexes| == |e.tx.inputs|
    && (e.coinbase ==> e.tx.inputs[0].prevout.vout == 0xffff_ffff)
  }

  predicate AllFormed(h: History) { forall j :: 0 <= j < |h| ==> Formed(h[j]) }

  predicate Resolved(s: System, h: History, k: nat)
    requires k < |h| && Formed(h[k])
  {
    h[k].coinbase || forall i :: 0 <= i < |h[k].tx.inputs| ==> Resolves(s, h, k, i)
  }

  /** A non-coinbase entry all of whose inputs resolve. */
  predicate Ordinary(s: System, h: History, k: nat) {
    && k < |h| && Formed(h[k]) && !h[k].coinbase && Resolved(s, h, k)
    && forall j :: 0 <= j < k ==> Formed(h[j])
  }

  function SpentOutput(s: System, h: History, k: nat, i: nat): (o: TxOut)
    requires Ordinary(s, h, k) && i < |h[k].tx.inputs|
  {
    assert Resolves(s, h, k, i);
    h[h[k].source[i]].tx.outputs[h[k].tx.inputs[i].prevout.vout]
  }

  function SpentOutputs(s: System, h: History, k: nat): (r: seq<TxOut>)
    requires Ordinary(s, h, k)
    ensures |r| == |h[k].tx.inputs| && forall i :: 0 <= i < |r| ==> r[i] == SpentOutput(s, h, k, i)
  {
    seq(|h[k].tx.inputs|, i requires 0 <= i < |h[k].tx.inputs| && Ordinary(s, h, k) => SpentOutput(s, h, k, i))
  }

  /** The deposit leaves behind the outputs of the entry that input `i` spends from. */
  function LeavesBehind(s: System, h: History, k: nat, i: nat): seq<Leaf>
    requires Ordinary(s, h, k) && i < |h[k].tx.inputs|
  {
    assert Resolves(s, h, k, i);
    h[h[k].source[i]].leaves
  }

  /** What a script run for input `i` sees. */
  function ContextAt(s: System, h: History, k: nat, i: nat): Context
    requires Ordinary(s, h, k) && i < |h[k].tx.inputs|
  {
    Context(h[k].tx, SpentOutputs(s, h, k), i, h[k].annexes[i])
  }

  function WorldAt(s: System, h: History, k: nat, i: nat): World
    requires Ordinary(s, h, k) && i < |h[k].tx.inputs|
  {
    World(s.t.sha, s.tweak, s.sig, s.cut, s.other, ContextAt(s, h, k, i))
  }

  lemma ContextFormed(s: System, h: History, k: nat, i: nat)
    requires Ordinary(s, h, k) && i < |h[k].tx.inputs|
    ensures WellFormed(ContextAt(s, h, k, i))
  {
    var c := ContextAt(s, h, k, i);
    forall j | 0 <= j < |c.spent| ensures c.spent[j].WellFormed() {
      assert Resolves(s, h, k, j);
      assert Formed(h[h[k].source[j]]);
    }
  }

  // ---------- the rules ----------

  /** The proof the verifier accepted is one for this input: its statement's masked digest is the second base item.
      This is the soundness of the proof system, taken as a rule. */
  predicate Attests(s: System, base: seq<bytes>, proof: Option<ProofInput>) {
    && proof.Some? && proof.value.WellFormed() && Transitioned(s.crypto, proof.value).Ok? && |base| >= 2
    && InputIs(base[1], MaskedDigest(s.t.sha, Transitioned(s.crypto, proof.value).value.statement))
  }

  /** A program leaf ran to success, and the verifier at its end is sound. */
  predicate ProgramRan(s: System, prefix: bytes, names: nat, stack: seq<bytes>, proof: Option<ProofInput>, w: World) {
    && Accepted(RunBytes(prefix + s.verifier, Fresh(stack), w))
    && (|stack| >= names && Accepted(RunBytes(s.verifier, Fresh(stack[..|stack| - names]), w)) ==>
          Attests(s, stack[..|stack| - names], proof))
  }

  ghost predicate SpendFollowsRules(s: System, h: History, k: nat, i: nat)
    requires s.Valid() && Ordinary(s, h, k) && i < |h[k].tx.inputs|
  {
    var spk, w := SpentOutput(s, h, k, i).spk, WorldAt(s, h, k, i);
    if spk == s.spk then
      match h[k].spends[i]
      case ByCollection(st) => ProgramRan(s, CollectionPrefix(s.t), 10, st, h[k].proof, w)
      case BySettlement(st) => ProgramRan(s, SettlementPrefix(s.t), 6, st, h[k].proof, w)
      case _ => false
    else
      && (forall l :: l in LeavesBehind(s, h, k, i) && TapSpk(w, LeafBytes(l)) == Some(spk) ==> h[k].spends[i].ByLeaf?)
      && (h[k].spends[i].ByLeaf? ==>
            |h[k].spends[i].script| < U64 && TapSpk(w, h[k].spends[i].script) == Some(spk) &&
            Accepted(RunBytes(h[k].spends[i].script, Fresh(h[k].spends[i].stack), w)))
  }

  ghost predicate FollowsRules(s: System, h: History, k: nat)
    requires s.Valid() && k < |h| && (forall j :: 0 <= j <= k ==> Formed(h[j])) && Resolved(s, h, k)
  {
    h[k].coinbase || forall i :: 0 <= i < |h[k].tx.inputs| ==> SpendFollowsRules(s, h, k, i)
  }

  /** Which output an input spends: the entry and the place in it. */
  function Point(e: Entry, i: nat): (nat, nat)
    requires Formed(e) && i < |e.tx.inputs|
  {
    (e.source[i], e.tx.inputs[i].prevout.vout)
  }

  /** No output is spent twice. */
  predicate SpentOnce(h: History)
    requires AllFormed(h)
  {
    forall k, i, m, j ::
      (0 <= k < |h| && 0 <= i < |h[k].tx.inputs| && 0 <= m < |h| && 0 <= j < |h[m].tx.inputs|
       && !h[k].coinbase && !h[m].coinbase && Point(h[k], i) == Point(h[m], j)) ==> (k == m && i == j)
  }

  /** A history the chain can have confirmed; transactions are pairwise different. */
  ghost predicate Confirmed(s: System, h: History) {
    && s.Valid() && AllFormed(h) && (forall k :: 0 <= k < |h| ==> Resolved(s, h, k))
    && (forall k :: 0 <= k < |h| ==> FollowsRules(s, h, k))
    && SpentOnce(h) && (forall k, m :: 0 <= k < m < |h| ==> h[k].tx != h[m].tx)
  }

  lemma ConfirmedOrdinary(s: System, h: History, k: nat)
    requires Confirmed(s, h) && k < |h| && !h[k].coinbase
    ensures Ordinary(s, h, k)
  {
  }

  // ---------- the strings a run hashes ----------

  function ClaimOf(e: Entry): Claim {
    if e.spends == [] then NoClaim()
    else match e.spends[0]
      case ByCollection(st) => if |st| >= 10 then CollectionClaim(st) else NoClaim()
      case BySettlement(st) => if |st| >= 6 then SettlementClaim(st) else NoClaim()
      case _ => NoClaim()
  }

  function NoClaim(): Claim { Claim([], [], [], [], [], []) }

  function TxStrings(sha: Hash, b: bytes): set<bytes> { {b, Sha(sha, b)} }

  function StateStrings(sha: Hash, b: bytes): set<bytes> { {b, CabooseScript(sha, b)} }

  function ClaimStrings(sha: Hash, x: Claim): set<bytes> {
    TxStrings(sha, x.parent) + TxStrings(sha, x.ancestor) + StateStrings(sha, x.oldState)
      + StateStrings(sha, x.newState)
  }

  function ScriptStrings(sha: Hash, script: bytes): set<bytes> {
    {LeafPreimage(sha, script), TweakPreimage(sha, script)}
  }

  /** The leaf a ticket stands for, as the collection program rebuilds it. */
  function TicketLeaf(s: System, x: Claim, k: Ticket): bytes {
    if |s.t.keys| == 3 then RebuiltLeaf(s.t, s.spk, x.bridgeId, k) else []
  }

  function LeafStrings(s: System, e: Entry): set<bytes> {
    if e.spends != [] && e.spends[0].ByCollection? && |e.spends[0].stack| >= 10 then
      ScriptStrings(s.t.sha, TicketLeaf(s, ClaimOf(e), TicketA(e.spends[0].stack))) +
      ScriptStrings(s.t.sha, TicketLeaf(s, ClaimOf(e), TicketB(e.spends[0].stack)))
    else {}
  }

  function RevealedStrings(sha: Hash, spends: seq<Spend>): (r: set<bytes>)
    ensures forall i :: 0 <= i < |spends| && spends[i].ByLeaf? ==> ScriptStrings(sha, spends[i].script) <= r
  {
    if spends == [] then {}
    else
      var n := |spends| - 1;
      RevealedStrings(sha, spends[..n]) + (if spends[n].ByLeaf? then ScriptStrings(sha, spends[n].script) else {})
  }

  function CommittedStrings(sha: Hash, leaves: seq<Leaf>): set<bytes> {
    if leaves == [] then {}
    else
      var n := |leaves| - 1;
      CommittedStrings(sha, leaves[..n]) + ScriptStrings(sha, LeafBytes(leaves[n]))
  }

  lemma {:induction false} CommittedIn(sha: Hash, leaves: seq<Leaf>, l: Leaf)
    requires l in leaves
    ensures ScriptStrings(sha, LeafBytes(l)) <= CommittedStrings(sha, leaves)
  {
    hide ScriptStrings, LeafBytes;
    if l != leaves[|leaves| - 1] {
      CommittedIn(sha, leaves[..|leaves| - 1], l);
    }
  }

  function StateOf(p: ProofInput): seq<Account> {
    match p case Collect(i) => i.oldState case Settle(i) => i.oldState
  }

  function RootStrings(s: System, p: Option<ProofInput>): set<bytes> {
    if p.Some? && p.value.WellFormed() && Transitioned(s.crypto, p.value).Ok?
        && |Transitioned(s.crypto, p.value).value.newState| == 3
    then {RootPreimage(StateOf(p.value)), RootPreimage(Transitioned(s.crypto, p.value).value.newState)}
    else {}
  }

  function EntryStrings(s: System, e: Entry): set<bytes> {
    TxStrings(s.t.sha, e.tx.Encode()) + ClaimStrings(s.t.sha, ClaimOf(e)) + LeafStrings(s, e) +
    RevealedStrings(s.t.sha, e.spends) + CommittedStrings(s.t.sha, e.leaves) + RootStrings(s, e.proof)
  }

  /** Every byte string hashed with SHA256 for the run, the genesis accounts' root preimage included. */
  function Hashed(s: System, h: History): set<bytes> {
    if h != [] then Hashed(s, h[..|h| - 1]) + EntryStrings(s, h[|h| - 1])
    else if |s.t.keys| == 3 then {RootPreimage(EmptyAccounts(s.t.keys))}
    else {}
  }

  function EntryStatements(s: System, e: Entry): set<bytes> {
    {ClaimOf(e).values} +
    (if e.proof.Some? && e.proof.value.WellFormed() && Transitioned(s.crypto, e.proof.value).Ok?
     then {Transitioned(s.crypto, e.proof.value).value.statement} else {})
  }

  function StatementStrings(s: System, h: History): set<bytes> {
    if h == [] then {} else StatementStrings(s, h[..|h| - 1]) + EntryStatements(s, h[|h| - 1])
  }

  lemma {:induction false} HashedAt(s: System, h: History, k: nat)
    requires k < |h|
    ensures EntryStrings(s, h[k]) <= Hashed(s, h) && EntryStatements(s, h[k]) <= StatementStrings(s, h)
  {
    hide EntryStrings, EntryStatements, RootPreimage;
    if k < |h| - 1 {
      HashedAt(s, h[..|h| - 1], k);
    }
  }

  lemma {:induction false} HashedGenesis(s: System, h: History)
    requires |s.t.keys| == 3
    ensures RootPreimage(EmptyAccounts(s.t.keys)) in Hashed(s, h)
  {
    hide EntryStrings, RootPreimage;
    if h != [] {
      HashedGenesis(s, h[..|h| - 1]);
    }
  }

  /** No two different strings of the run share a digest, no two statements of the run a masked digest, and no two
      digests of the run a tweaked key. Each part speaks of finitely many strings. */
  ghost predicate CollisionFree(s: System, h: History) {
    && (forall a, b :: a in Hashed(s, h) && b in Hashed(s, h) && Sha(s.t.sha, a) == Sha(s.t.sha, b) ==> a == b)
    && (forall a, b :: a in StatementStrings(s, h) && b in StatementStrings(s, h) ==>
          (MaskedDigest(s.t.sha, a) == MaskedDigest(s.t.sha, b) ==> a == b))
    && (forall a, b :: a in Hashed(s, h) && b in Hashed(s, h) ==>
          (TweakOf(s, a).Some? && TweakOf(s, a) == TweakOf(s, b) ==> Sha(s.t.sha, a) == Sha(s.t.sha, b)))
  }

  function TweakOf(s: System, a: bytes): Option<bytes> { s.tweak(Sha(s.t.sha, a), NUMS_INTERNAL_KEY) }
}
