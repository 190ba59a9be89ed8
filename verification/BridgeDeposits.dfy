// How the collection program authenticates a deposit it spends: it rebuilds the deposit leaf from the witness and
// the deployment's keys, and demands that the spent script commits to that leaf.
module BridgeDeposits {
  import opened Bytes
  import opened Transactions
  import opened Script
  import opened Building
  import opened Calls
  import opened BuilderClass
  import opened TxContext
  import opened Linearization
  import opened Deposit
  import opened DepositLeaf
  import opened BridgeHead
  import opened BridgeOutputs

  // ---------- choosing by recipient number ----------

  function Chosen(xs: seq<bytes>, n: nat): bytes
    requires |xs| == 3
  {
    if n == 0 then xs[0] else if n == 1 then xs[1] else xs[2]
  }

  function IsNumberCalls(p: Prog, id: Name, n: nat): Prog { Then2(Then(Then(p, Get(id)), Number(n)), OP_NUMEQUAL) }

  function ThirdCalls(p: Prog, id: Name, x: bytes): Prog {
    Then(NumEqualVerify(Then(Then(p, Get(id)), Number(2))), Push(x))
  }

  function OtherCalls(p: Prog, id: Name, xs: seq<bytes>): Prog
    requires |xs| == 3
  {
    Then(IsNumberCalls(p, id, 1), Branch(Then(Nil, Push(xs[1])), ThirdCalls(Nil, id, xs[2])))
  }

  function ChooseCalls(p: Prog, id: Name, xs: seq<bytes>): Prog
    requires |xs| == 3
  {
    Then(IsNumberCalls(p, id, 0), Branch(Then(Nil, Push(xs[0])), OtherCalls(Nil, id, xs)))
  }

  method IsNumber(b: Builder, id: Name, n: nat)
    requires b.Valid() && id in b.names
    modifies b
    ensures b.Valid() && b.names == old(b.names) + [Anon]
    ensures b.at == old(b.at).(prog := IsNumberCalls(old(b.at).prog, id, n))
  {
    b.Get(id);
    b.Number(n);
    b.Op(OP_NUMEQUAL, 2, 1);
    assert b.names == old(b.names) + [Anon];
  }

  method ChooseOther(b: Builder, id: Name, xs: seq<bytes>)
    requires b.Valid() && id in b.names && |xs| == 3
    modifies b
    ensures b.Valid() && b.names == old(b.names) + [Anon]
    ensures b.at == old(b.at).(prog := OtherCalls(old(b.at).prog, id, xs))
  {
    IsNumber(b, id, 1);
    var before := b.BeginBranch();
    assert before == old(b.names);
    b.Push(xs[1]);
    var after := b.ElseBranch(before);
    b.Get(id);
    b.Number(2);
    b.Op(OP_NUMEQUALVERIFY, 2, 0);
    assert b.names == old(b.names);
    b.Push(xs[2]);
    b.EndBranch(after);
  }

  method Choose(b: Builder, id: Name, xs: seq<bytes>)
    requires b.Valid() && id in b.names && |xs| == 3
    modifies b
    ensures b.Valid() && b.names == old(b.names) + [Anon]
    ensures b.at == old(b.at).(prog := ChooseCalls(old(b.at).prog, id, xs))
  {
    IsNumber(b, id, 0);
    var before := b.BeginBranch();
    assert before == old(b.names);
    b.Push(xs[0]);
    var after := b.ElseBranch(before);
    ChooseOther(b, id, xs);
    b.EndBranch(after);
  }

  lemma IsNumberStep(p: Prog, id: Name, n: nat, e0: Env, w: World, e: Env, ok: bool)
    requires Reaches(p, e0, w, e, ok)
    ensures Reaches(IsNumberCalls(p, id, n), e0, w, Bind(e, Anon, Bool(Val(Lookup(e, id)) == n)), ok)
  {
    hide Reaches, SignedNum, Lookup, Val;
    var e1 := Bind(e, Anon, Lookup(e, id));
    GetStep(p, id, e0, w, e, ok);
    NumberStep(Then(p, Get(id)), n, e0, w, e1, ok);
    JoinStep(Then(Then(p, Get(id)), Number(n)), OP_NUMEQUAL, e0, w, Bind(e1, Anon, SignedNum(n)), ok);
  }

  lemma OtherStep(id: Name, xs: seq<bytes>, e: Env, w: World)
    requires |xs| == 3
    ensures var n := Val(Lookup(e, id));
            Reaches(OtherCalls(Nil, id, xs), e, w, Bind(e, Anon, if n == 1 then xs[1] else xs[2]), n == 1 || n == 2)
  {
    hide Reaches, SignedNum, Lookup, Val, IsNumberCalls;
    var n := Val(Lookup(e, id));
    NilStep(e, w);
    IsNumberStep(Nil, id, 1, e, w, e, true);
    PushStep(Nil, xs[1], e, w, e, true);
    var e1 := Bind(e, Anon, Lookup(e, id));
    GetStep(Nil, id, e, w, e, true);
    NumberStep(Then(Nil, Get(id)), 2, e, w, e1, true);
    NumEqualStep(Then(Then(Nil, Get(id)), Number(2)), e, w, Bind(e1, Anon, SignedNum(2)), true);
    PushStep(NumEqualVerify(Then(Then(Nil, Get(id)), Number(2))), xs[2], e, w, e, n == 2);
    BranchStep(IsNumberCalls(Nil, id, 1), Then(Nil, Push(xs[1])), ThirdCalls(Nil, id, xs[2]), e, w, e, true, n == 1,
               Bind(e, Anon, if n == 1 then xs[1] else xs[2]), true, n == 2);
  }

  /** Whatever encoding of a number the witness holds, it selects by value, and only 0, 1 and 2 pass. */
  lemma ChooseStep(p: Prog, id: Name, xs: seq<bytes>, e0: Env, w: World, e: Env, ok: bool)
    requires Reaches(p, e0, w, e, ok) && |xs| == 3
    ensures var n := Val(Lookup(e, id));
            Reaches(ChooseCalls(p, id, xs), e0, w, Bind(e, Anon, Chosen(xs, n)), ok && n < 3)
  {
    hide Reaches, Lookup, Val, IsNumberCalls, OtherCalls;
    var n := Val(Lookup(e, id));
    IsNumberStep(p, id, 0, e0, w, e, ok);
    NilStep(e, w);
    PushStep(Nil, xs[0], e, w, e, true);
    OtherStep(id, xs, e, w);
    BranchStep(IsNumberCalls(p, id, 0), Then(Nil, Push(xs[0])), OtherCalls(Nil, id, xs), e0, w, e, ok, n == 0,
               Bind(e, Anon, Chosen(xs, n)), true, n == 1 || n == 2);
  }

  // ---------- the leaf ----------

  function Prefixes(keys: seq<bytes>): seq<bytes>
    requires |keys| == 3
  {
    [BeforeBridge(0, keys[0]), BeforeBridge(1, keys[1]), BeforeBridge(2, keys[2])]
  }

  function SizedAppendCalls(p: Prog, n: Name, size: nat): Prog {
    Then2(RequireSizeCalls(Then(p, Get(n)), n, size), OP_CAT)
  }

  function LeafCalls(p: Prog, id: Name, refund: Name, keys: seq<bytes>): Prog
    requires |keys| == 3
  {
    Then(SuffixCalls(SizedAppendCalls(SuffixCalls(AppendCalls(SuffixCalls(AppendCalls(ChooseCalls(p, id,
        Prefixes(keys)),
      BridgeId), BEFORE_SPK), ProgramSpk), BEFORE_REFUND), refund, 32), AfterRefund()), Rename(DepositLeafBytes))
  }

  method RebuildLeaf(b: Builder, id: Name, refund: Name, keys: seq<bytes>)
    requires b.Valid() && {id, refund, BridgeId, ProgramSpk} <= (set n | n in b.names) && |keys| == 3
    modifies b
    ensures b.Valid() && b.names == old(b.names) + [DepositLeafBytes]
    ensures b.at == old(b.at).(prog := LeafCalls(old(b.at).prog, id, refund, keys))
  {
    hide ChooseCalls, AppendCalls, SuffixCalls, RequireSizeCalls, AfterRefund, BeforeBridge;
    Choose(b, id, Prefixes(keys));
    AppendTop(b, BridgeId);
    assert b.names == old(b.names) + [Anon];
    SuffixTop(b, BEFORE_SPK);
    assert b.names == old(b.names) + [Anon];
    AppendTop(b, ProgramSpk);
    assert b.names == old(b.names) + [Anon];
    SuffixTop(b, BEFORE_REFUND);
    assert b.names == old(b.names) + [Anon];
    b.Get(refund);
    b.RequireSize(refund, 32);
    b.Cat();
    assert b.names == old(b.names) + [Anon];
    SuffixTop(b, AfterRefund());
    b.SetName(DepositLeafBytes);
    assert b.names == old(b.names) + [DepositLeafBytes];
  }

  /** What the witness says about one deposit. */
  datatype Ticket = Ticket(recipient: bytes, refund: bytes)

  function RebuiltLeaf(t: Terms, spk: bytes, bridgeId: bytes, k: Ticket): bytes
    requires |t.keys| == 3
  {
    Joined6(Chosen(Prefixes(t.keys), Val(k.recipient)), bridgeId, spk, k.refund)
  }

  lemma SizedAppendStep(p: Prog, n: Name, size: nat, e0: Env, w: World, e: Env, v: bytes, ok: bool)
    requires Reaches(p, e0, w, Bind(e, Anon, v), ok) && n != Anon
    ensures Reaches(SizedAppendCalls(p, n, size), e0, w, Bind(e, Anon, v + Lookup(e, n)), ok && |Lookup(e, n)| == size)
  {
    hide Reaches, RequireSizeCalls, Lookup;
    var e1, x := Bind(e, Anon, v), Lookup(e, n);
    LookupBind(e, Anon, v, n);
    LookupBind(e1, Anon, x, n);
    GetStep(p, n, e0, w, e1, ok);
    RequireSizeStep(Then(p, Get(n)), n, size, e0, w, Bind(e1, Anon, x), ok);
    CatStep(RequireSizeCalls(Then(p, Get(n)), n, size), e0, w, Bind(e1, Anon, x), ok && |x| == size);
  }

  lemma LeafStep(p: Prog, id: Name, refund: Name, t: Terms, e0: Env, w: World, e: Env, ok: bool)
    requires Reaches(p, e0, w, e, ok) && |t.keys| == 3 && refund != Anon
    ensures var k := Ticket(Lookup(e, id), Lookup(e, refund));
            Reaches(LeafCalls(p, id, refund, t.keys), e0, w,
                    Bind(e, DepositLeafBytes, RebuiltLeaf(t, Lookup(e, ProgramSpk), Lookup(e, BridgeId), k)),
                    ok && Val(k.recipient) < 3 && |k.refund| == 32)
  {
    hide Reaches, ChooseCalls, AppendCalls, SuffixCalls, SizedAppendCalls, AfterRefund, BeforeBridge, Lookup, Val;
    var xs := Prefixes(t.keys);
    var n, k1 := Val(Lookup(e, id)), ok && Val(Lookup(e, id)) < 3;
    var p1, v1 := ChooseCalls(p, id, xs), Chosen(xs, n);
    var p2, v2 := AppendCalls(p1, BridgeId), v1 + Lookup(e, BridgeId);
    var p3, v3 := SuffixCalls(p2, BEFORE_SPK), v2 + BEFORE_SPK;
    var p4, v4 := AppendCalls(p3, ProgramSpk), v3 + Lookup(e, ProgramSpk);
    var p5, v5 := SuffixCalls(p4, BEFORE_REFUND), v4 + BEFORE_REFUND;
    var p6, v6, k6 := SizedAppendCalls(p5, refund, 32), v5 + Lookup(e, refund), k1 && |Lookup(e, refund)| == 32;
    ChooseStep(p, id, xs, e0, w, e, ok);
    AppendStep(p1, BridgeId, e0, w, Bind(e, Anon, v1), k1);
    SuffixStep(p2, BEFORE_SPK, e0, w, Bind(e, Anon, v2), k1);
    AppendStep(p3, ProgramSpk, e0, w, Bind(e, Anon, v3), k1);
    SuffixStep(p4, BEFORE_REFUND, e0, w, Bind(e, Anon, v4), k1);
    SizedAppendStep(p5, refund, 32, e0, w, e, v5, k1);
    SuffixStep(p6, AfterRefund(), e0, w, Bind(e, Anon, v6), k6);
    NameStep(SuffixCalls(p6, AfterRefund()), DepositLeafBytes, e0, w, Bind(e, Anon, v6 + AfterRefund()), k6);
  }

  // ---------- the script committing to the leaf ----------

  function LeafHashCalls(p: Prog, sha: Hash): Prog {
    HashCalls(AppendCalls(Then(p, Push(TagPrefix(sha, TAP_LEAF) + [LEAF_VERSION] + CompactSize(LeafSize()))),
                          DepositLeafBytes),
              OP_SHA256)
  }

  function TapCalls(p: Prog, sha: Hash): Prog {
    PrefixCalls(Then2(Then(HashCalls(PrefixCalls(LeafHashCalls(p, sha),
                                                 TagPrefix(sha, TAP_TWEAK) + NUMS_INTERNAL_KEY), OP_SHA256),
      Push(NUMS_INTERNAL_KEY)), OP_TWEAKADD), [0x22, 0x51, 0x20])
  }

  function DepositCalls(p: Prog, t: Terms, index: nat, id: Name, refund: Name): Prog
    requires |t.keys| == 3
  {
    EqualVerify(SliceCalls(TapCalls(LeafCalls(p, id, refund, t.keys), t.sha), SpksOf, 35 * index, 35))
  }

  method AuthenticateDeposit(b: Builder, t: Terms, index: nat, id: Name, refund: Name)
    requires b.Valid() && {id, refund, BridgeId, ProgramSpk, SpksOf} <= (set n | n in b.names) && |t.keys| == 3
    modifies b
    ensures b.Valid() && b.names == old(b.names) + [DepositLeafBytes]
    ensures b.at == old(b.at).(prog := DepositCalls(old(b.at).prog, t, index, id, refund))
  {
    hide LeafCalls, TapCalls, SliceCalls;
    RebuildLeaf(b, id, refund, t.keys);
    CommitToLeaf(b, t.sha);
    b.Slice(SpksOf, 35 * index, 35);
    b.Op(OP_EQUALVERIFY, 2, 0);
    assert b.names == old(b.names) + [DepositLeafBytes];
  }

  method HashLeaf(b: Builder, sha: Hash)
    requires b.Valid() && DepositLeafBytes in b.names
    modifies b
    ensures b.Valid() && b.names == old(b.names) + [Anon]
    ensures b.at == old(b.at).(prog := LeafHashCalls(old(b.at).prog, sha))
  {
    hide AppendCalls, TagPrefix, LeafSize, CompactSize;
    b.Push(TagPrefix(sha, TAP_LEAF) + [LEAF_VERSION] + CompactSize(LeafSize()));
    AppendTop(b, DepositLeafBytes);
    b.Op(OP_SHA256, 1, 1);
    assert b.names == old(b.names) + [Anon];
  }

  method CommitToLeaf(b: Builder, sha: Hash)
    requires b.Valid() && DepositLeafBytes in b.names
    modifies b
    ensures b.Valid() && b.names == old(b.names) + [Anon]
    ensures b.at == old(b.at).(prog := TapCalls(old(b.at).prog, sha))
  {
    hide LeafHashCalls, PrefixCalls, TagPrefix;
    HashLeaf(b, sha);
    PrefixTop(b, TagPrefix(sha, TAP_TWEAK) + NUMS_INTERNAL_KEY);
    b.Op(OP_SHA256, 1, 1);
    assert b.names == old(b.names) + [Anon];
    b.Push(NUMS_INTERNAL_KEY);
    b.Op(OP_TWEAKADD, 2, 1);
    assert b.names == old(b.names) + [Anon];
    PrefixTop(b, [0x22, 0x51, 0x20]);
    assert b.names == old(b.names) + [Anon];
  }

  function TweakedBy(w: World, leafHash: bytes): Option<bytes> {
    w.tweak(Sha(w.sha, TagPrefix(w.sha, TAP_TWEAK) + NUMS_INTERNAL_KEY + leafHash), NUMS_INTERNAL_KEY)
  }

  lemma TapStep(p: Prog, e0: Env, w: World, e: Env, ok: bool)
    requires Reaches(p, e0, w, e, ok)
    ensures var h := Sha(w.sha,
                         TagPrefix(w.sha, TAP_LEAF) + [LEAF_VERSION] + CompactSize(LeafSize())
                           + Lookup(e, DepositLeafBytes));
            var q := TweakedBy(w, h);
            Reaches(TapCalls(p, w.sha), e0, w, Bind(e, Anon, [0x22, 0x51, 0x20] + Got(q)), ok && q.Some?)
  {
    hide Reaches, AppendCalls, PrefixCalls, HashCalls, Lookup, TagPrefix, LeafSize, Sha, CompactSize;
    var a, b := TagPrefix(w.sha, TAP_LEAF) + [LEAF_VERSION] + CompactSize(LeafSize()),
        TagPrefix(w.sha, TAP_TWEAK) + NUMS_INTERNAL_KEY;
    var leaf := Lookup(e, DepositLeafBytes);
    var h := Sha(w.sha, a + leaf);
    var g := Sha(w.sha, b + h);
    var q := w.tweak(g, NUMS_INTERNAL_KEY);
    var p1 := Then(p, Push(a));
    var p2, p3 := AppendCalls(p1, DepositLeafBytes), LeafHashCalls(p, w.sha);
    var p4 := PrefixCalls(p3, b);
    var p5 := HashCalls(p4, OP_SHA256);
    var p6 := Then(p5, Push(NUMS_INTERNAL_KEY));
    PushStep(p, a, e0, w, e, ok);
    AppendStep(p1, DepositLeafBytes, e0, w, Bind(e, Anon, a), ok);
    HashStep(p2, OP_SHA256, e0, w, Bind(e, Anon, a + leaf), ok);
    PrefixStep(p3, b, e0, w, Bind(e, Anon, h), ok);
    HashStep(p4, OP_SHA256, e0, w, Bind(e, Anon, b + h), ok);
    PushStep(p5, NUMS_INTERNAL_KEY, e0, w, Bind(e, Anon, g), ok);
    JoinStep(p6, OP_TWEAKADD, e0, w, Bind(Bind(e, Anon, g), Anon, NUMS_INTERNAL_KEY), ok);
    PrefixStep(Then2(p6, OP_TWEAKADD), [0x22, 0x51, 0x20], e0, w, Bind(e, Anon, Got(q)), ok && q.Some?);
  }

  /** Spent output `index` is the deposit described by the ticket: its script commits to the leaf of a recipient of
      the deployment, of this bridge and of the given refund key, and to nothing else. */
  predicate Deposited(t: Terms, w: World, index: nat, bridgeId: bytes, k: Ticket)
    requires |t.keys| == 3
  {
    && Val(k.recipient) < 3 && |k.refund| == 32 && index < |w.ctx.spent|
    && TapSpk(w, LeafBytes(LeafOf(t, w.ctx, bridgeId, k))) == Some(w.ctx.spent[index].spk)
  }

  function LeafOf(t: Terms, c: Context, bridgeId: bytes, k: Ticket): Leaf
    requires |t.keys| == 3 && Val(k.recipient) < 3
  {
    Leaf(SpkOf(c), bridgeId, Val(k.recipient), t.keys[Val(k.recipient)], k.refund)
  }

  lemma RebuiltIsLeaf(t: Terms, w: World, bridgeId: bytes, k: Ticket)
    requires t.Valid() && Val(k.recipient) < 3 && |k.refund| == 32 && |bridgeId| == 32 && |SpkOf(w.ctx)| == 34
    ensures var leaf := LeafOf(t, w.ctx, bridgeId, k);
            && leaf.Valid() && RebuiltLeaf(t, SpkOf(w.ctx), bridgeId, k) == LeafBytes(leaf)
            && |LeafBytes(leaf)| == LeafSize()
  {
    hide SpkOf, BeforeBridge, Val, Joined6, LeafSize;
    var leaf := LeafOf(t, w.ctx, bridgeId, k);
    assert leaf.Valid();
    LeafLength(leaf);
  }

  lemma CompareSpkStep(p: Prog, index: nat, e0: Env, w: World, e: Env, ok: bool, q: Option<bytes>)
    requires Reaches(p, e0, w, Bind(e, Anon, [0x22, 0x51, 0x20] + Got(q)), ok && q.Some?)
    requires Lookup(e, SpksOf) == Spks(w.ctx) && (ok ==> AllNative(w.ctx.spent) && index < |w.ctx.spent|)
    ensures Reaches(EqualVerify(SliceCalls(p, SpksOf, 35 * index, 35)), e0, w, e,
                    ok && q.Some? && w.ctx.spent[index].spk == [0x51, 0x20] + q.value)
  {
    hide Reaches, SliceCalls, Spks, Lookup;
    var x := [0x22, 0x51, 0x20] + Got(q);
    LookupBind(e, Anon, x, SpksOf);
    if ok {
      NativeSpkAt(w.ctx, index);
    }
    CutStep(p, SpksOf, 35 * index, 35, e0, w, Bind(e, Anon, x), ok && q.Some?);
    var y := if ok && q.Some? then Spks(w.ctx)[35 * index..35 * index + 35] else [];
    EqualStep(SliceCalls(p, SpksOf, 35 * index, 35), e0, w, Bind(Bind(e, Anon, x), Anon, y), ok && q.Some?);
    if ok && q.Some? {
      CompareSpk(w.ctx.spent[index].spk, q.value);
    }
  }

  lemma CompareSpk(s: bytes, q: bytes)
    ensures [0x22, 0x51, 0x20] + q == [0x22] + s <==> s == [0x51, 0x20] + q
  {
    assert [0x22, 0x51, 0x20] + q == [0x22] + ([0x51, 0x20] + q);
    if [0x22, 0x51, 0x20] + q == [0x22] + s {
      Peel([0x22], [0x51, 0x20] + q, [0x22], s);
    }
  }

  /** The deposit check accepts exactly the deposits its ticket describes. */
  lemma DepositStep(p: Prog, t: Terms, index: nat, id: Name, refund: Name, e0: Env, w: World, e: Env, ok: bool)
    requires Reaches(p, e0, w, e, ok) && t.Valid() && t.sha == w.sha && refund != Anon
    requires Lookup(e, SpksOf) == Spks(w.ctx) && Lookup(e, ProgramSpk) == SpkOf(w.ctx)
    requires ok ==> && AllNative(w.ctx.spent) && index < |w.ctx.spent| && |SpkOf(w.ctx)| == 34
                    && |Lookup(e, BridgeId)| == 32
    ensures var k := Ticket(Lookup(e, id), Lookup(e, refund));
            Reaches(DepositCalls(p, t, index, id, refund), e0, w,
                    Bind(e, DepositLeafBytes, RebuiltLeaf(t, SpkOf(w.ctx), Lookup(e, BridgeId), k)),
                    ok && Deposited(t, w, index, Lookup(e, BridgeId), k))
  {
    hide Reaches, LeafCalls, TapCalls, SliceCalls, RebuiltLeaf, Lookup, Spks, SpkOf, Val, TagPrefix, LeafBytes;
    hide LeafSize;
    var k, bridgeId := Ticket(Lookup(e, id), Lookup(e, refund)), Lookup(e, BridgeId);
    var leaf := RebuiltLeaf(t, SpkOf(w.ctx), bridgeId, k);
    var k1, e1 := ok && Val(k.recipient) < 3 && |k.refund| == 32, Bind(e, DepositLeafBytes, leaf);
    LookupBind(e, DepositLeafBytes, leaf, DepositLeafBytes);
    LookupBind(e, DepositLeafBytes, leaf, SpksOf);
    LeafStep(p, id, refund, t, e0, w, e, ok);
    var p1 := LeafCalls(p, id, refund, t.keys);
    TapStep(p1, e0, w, e1, k1);
    var q := TweakedBy(w, Sha(w.sha, TagPrefix(w.sha, TAP_LEAF) + [LEAF_VERSION] + CompactSize(LeafSize()) + leaf));
    CompareSpkStep(TapCalls(p1, t.sha), index, e0, w, e1, k1, q);
    if k1 {
      RebuiltIsLeaf(t, w, bridgeId, k);
    }
  }
}
