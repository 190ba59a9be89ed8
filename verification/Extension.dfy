// How confirmed histories grow: from the empty one, by coinbase entries, by payments that leave the program and
// deposit leaves alone, and by any entry that follows the rules.
module Extension {
  import opened Bytes
  import opened Transactions
  import opened Script
  import opened DepositLeaf
  import opened Accounts
  import opened BridgeDigest
  import opened BridgeRuns
  import opened Ledger
  import opened Attested
  import opened Lineage

  function Grow(h: History, e: Entry): History { h + [e] }

  /** An earlier input spends the same output, made from the same leaves. */
  predicate SameInput(s: System, h: History, e: Entry, k: nat, i: nat)
    requires k < |h| && Ordinary(s, h, k) && i < |h[k].tx.inputs|
  {
    && Ordinary(s, Grow(h, e), k) && Grow(h, e)[k] == h[k]
    && SpentOutput(s, Grow(h, e), k, i) == SpentOutput(s, h, k, i)
    && LeavesBehind(s, Grow(h, e), k, i) == LeavesBehind(s, h, k, i)
  }

  /** Earlier entries read the same in a longer history. */
  lemma EarlierSame(s: System, h: History, e: Entry, k: nat)
    requires k < |h| && Ordinary(s, h, k)
    ensures Ordinary(s, Grow(h, e), k)
    ensures SpentOutputs(s, Grow(h, e), k) == SpentOutputs(s, h, k)
    ensures forall i :: 0 <= i < |h[k].tx.inputs| ==> SameInput(s, h, e, k, i)
  {
    hide Hash256;
    var g := Grow(h, e);
    assert g[k] == h[k];
    forall i | 0 <= i < |h[k].tx.inputs| ensures Resolves(s, g, k, i) {
      assert Resolves(s, h, k, i);
    }
    assert Ordinary(s, g, k);
    forall i | 0 <= i < |h[k].tx.inputs| ensures SameInput(s, h, e, k, i) {
      assert Resolves(s, h, k, i);
    }
    forall i | 0 <= i < |h[k].tx.inputs| ensures SpentOutputs(s, g, k)[i] == SpentOutputs(s, h, k)[i] {
      assert SameInput(s, h, e, k, i);
    }
  }

  lemma EarlierFollows(s: System, h: History, e: Entry, k: nat, i: nat)
    requires s.Valid() && k < |h| && Ordinary(s, h, k) && i < |h[k].tx.inputs| && SpendFollowsRules(s, h, k, i)
    ensures Ordinary(s, Grow(h, e), k) && SpendFollowsRules(s, Grow(h, e), k, i)
  {
    hide Ordinary, ProgramRan, TapSpk, RunBytes, Deployed, SpentOutputs, SpentOutput, LeavesBehind, LeafBytes;
    EarlierSame(s, h, e, k);
    assert Grow(h, e)[k] == h[k];
    assert WorldAt(s, Grow(h, e), k, i) == WorldAt(s, h, k, i);
    assert SameInput(s, h, e, k, i);
  }

  /** An entry that may come next: it resolves, its spends follow the rules, it spends nothing spent, and it is new. */
  ghost predicate MayFollow(s: System, h: History, e: Entry)
    requires s.Valid() && AllFormed(h)
  {
    var g, n := Grow(h, e), |h|;
    && Formed(e) && !e.coinbase && Resolved(s, g, n) && Ordinary(s, g, n)
    && (forall i :: 0 <= i < |e.tx.inputs| ==> SpendFollowsRules(s, g, n, i))
    && (forall k, i, j :: 0 <= k < n && 0 <= i < |h[k].tx.inputs| && 0 <= j < |e.tx.inputs| && !h[k].coinbase ==>
          Point(h[k], i) != Point(e, j))
    && (forall i, j :: 0 <= i < j < |e.tx.inputs| ==> Point(e, i) != Point(e, j))
    && (forall k :: 0 <= k < n ==> h[k].tx != e.tx)
  }

  /** Confirmation only ever asks about the new entry. */
  lemma Extends(s: System, h: History, e: Entry)
    requires Confirmed(s, h) && AllFormed(h) && MayFollow(s, h, e)
    ensures Confirmed(s, Grow(h, e))
  {
    hide FollowsRules, Resolved, Ordinary, SpendFollowsRules, Point, Formed, SpentOnce, System.Valid;
    var g, n := Grow(h, e), |h|;
    assert forall k :: 0 <= k < n ==> g[k] == h[k];
    assert AllFormed(g);
    EntryFollows(s, h, e);
    forall k | 0 <= k < |g| ensures Resolved(s, g, k) && FollowsRules(s, g, k) {
      if k < n {
        EntryStays(s, h, e, k);
      }
    }
    OnceMore(h, e);
  }

  lemma EntryFollows(s: System, h: History, e: Entry)
    requires s.Valid() && AllFormed(h) && MayFollow(s, h, e)
    ensures AllFormed(Grow(h, e)) && Resolved(s, Grow(h, e), |h|) && FollowsRules(s, Grow(h, e), |h|)
  {
    hide SpendFollowsRules, Resolved, Ordinary, Point, Deployed, Formed;
    assert Grow(h, e)[|h|] == e && forall k :: 0 <= k < |h| ==> Grow(h, e)[k] == h[k];
  }

  lemma EntryStays(s: System, h: History, e: Entry, k: nat)
    requires Confirmed(s, h) && k < |h|
    ensures forall j :: 0 <= j <= k ==> Formed(Grow(h, e)[j])
    ensures Resolved(s, Grow(h, e), k) && FollowsRules(s, Grow(h, e), k)
  {
    hide SpendFollowsRules, SpentOnce, Hash256, Deployed;
    var g := Grow(h, e);
    assert g[k] == h[k] && forall j :: 0 <= j <= k ==> g[j] == h[j];
    if !h[k].coinbase {
      ConfirmedOrdinary(s, h, k);
      EarlierSame(s, h, e, k);
      assert FollowsRules(s, h, k);
      forall i | 0 <= i < |h[k].tx.inputs| ensures SpendFollowsRules(s, g, k, i) {
        EarlierFollows(s, h, e, k, i);
      }
    }
  }

  lemma OnceMore(h: History, e: Entry)
    requires AllFormed(h) && Formed(e) && SpentOnce(h)
    requires forall k, i, j :: 0 <= k < |h| && 0 <= i < |h[k].tx.inputs| && 0 <= j < |e.tx.inputs| && !h[k].coinbase ==>
               Point(h[k], i) != Point(e, j)
    requires forall i, j :: 0 <= i < j < |e.tx.inputs| ==> Point(e, i) != Point(e, j)
    ensures (forall j :: 0 <= j < |Grow(h, e)| ==> Formed(Grow(h, e)[j])) && SpentOnce(Grow(h, e))
  {
    hide Point;
    var g, n := Grow(h, e), |h|;
    assert g[n] == e && forall k :: 0 <= k < n ==> g[k] == h[k];
  }

  // ---------- unspent outputs ----------

  /** No confirmed entry spends this output. */
  predicate Untouched(h: History, at: (nat, nat))
    requires AllFormed(h)
  {
    forall j, i :: 0 <= j < |h| && 0 <= i < |h[j].tx.inputs| && !h[j].coinbase ==> Point(h[j], i) != at
  }

  /** A transaction that spends an unspent output is none of the confirmed ones. */
  lemma SpenderIsNew(s: System, h: History, tx: Tx, f: nat, v: nat, k: nat)
    requires Confirmed(s, h) && CollisionFree(s, h) && AllFormed(h) && Untouched(h, (f, v)) && f < |h| && k < |h|
    requires |tx.inputs| > 0 && tx.inputs[0].prevout == OutPoint(TxidAt(s, h, f), v) && v < 0xffff_ffff
    ensures h[k].tx != tx
  {
    hide CollisionFree, Confirmed, Hash256;
    if h[k].tx == tx && !h[k].coinbase {
      ConfirmedOrdinary(s, h, k);
      assert Resolves(s, h, k, 0);
      assert Point(h[k], 0) != (f, v);
      SameTx(s, h, h[k].source[0], f);
    }
  }

  // ---------- how histories start and take in other transactions ----------

  /** The empty history is confirmed and free of collisions. */
  lemma Starts(s: System)
    requires s.Valid()
    ensures Confirmed(s, []) && CollisionFree(s, [])
  {
    hide System.Valid, Hashed, StatementStrings, MaskedDigest, Sha, TweakOf, SpentOnce, FollowsRules, Resolved;
    NothingHashed(s);
    assert SpentOnce([]) by { NothingSpent(); }
  }

  lemma NothingHashed(s: System)
    ensures StatementStrings(s, []) == {} && forall a, b :: a in Hashed(s, []) && b in Hashed(s, []) ==> a == b
  {
    hide RootPreimage;
  }

  lemma NothingSpent()
    ensures SpentOnce([])
  {
  }

  /** Coins come from coinbase entries, which spend nothing. */
  lemma CoinbaseExtends(s: System, h: History, e: Entry)
    requires Confirmed(s, h) && AllFormed(h) && Formed(e) && e.coinbase && forall k :: 0 <= k < |h| ==> h[k].tx != e.tx
    ensures Confirmed(s, Grow(h, e))
  {
    hide SpendFollowsRules, Ordinary, Deployed;
    var g, n := Grow(h, e), |h|;
    assert g[n] == e && forall k :: 0 <= k < n ==> g[k] == h[k];
    forall k | 0 <= k < |g| ensures Formed(g[k]) {
      assert g[k] == if k < n then h[k] else e;
    }
    forall k | 0 <= k < |g| ensures Resolved(s, g, k) && FollowsRules(s, g, k) {
      if k < n {
        EntryStays(s, h, e, k);
      }
    }
  }

  /** An entry that spends neither the program nor a deposit leaf, and no output spent before. */
  ghost predicate Payment(s: System, h: History, e: Entry)
    requires AllFormed(h)
  {
    var g, n := Grow(h, e), |h|;
    && Formed(e) && !e.coinbase && Ordinary(s, g, n) && e.tx.inputs[0].prevout.vout < 0xffff_ffff
    && (forall i :: 0 <= i < |e.tx.inputs| ==> e.spends[i].Otherwise? && Elsewhere(s, g, n, i))
    && (forall i :: 0 <= i < |e.tx.inputs| ==> Untouched(h, Point(e, i)))
    && (forall i, j :: 0 <= i < j < |e.tx.inputs| ==> Point(e, i) != Point(e, j))
  }

  ghost predicate Elsewhere(s: System, h: History, k: nat, i: nat)
    requires Ordinary(s, h, k) && i < |h[k].tx.inputs|
  {
    && SpentOutput(s, h, k, i).spk != s.spk
    && forall l :: l in LeavesBehind(s, h, k, i)
         ==> TapSpk(WorldAt(s, h, k, i), LeafBytes(l)) != Some(SpentOutput(s, h, k, i).spk)
  }

  lemma PaymentNew(s: System, h: History, e: Entry)
    requires Confirmed(s, h) && CollisionFree(s, h) && AllFormed(h) && Payment(s, h, e)
    ensures forall k :: 0 <= k < |h| ==> h[k].tx != e.tx
  {
    hide Confirmed, CollisionFree, Hash256, SpentOutput, Elsewhere, Untouched;
    var g, n := Grow(h, e), |h|;
    assert g[n] == e && forall k :: 0 <= k < n ==> g[k] == h[k];
    assert Resolves(s, g, n, 0);
    assert Untouched(h, Point(e, 0));
    forall k | 0 <= k < n ensures h[k].tx != e.tx {
      SpenderIsNew(s, h, e.tx, e.source[0], e.tx.inputs[0].prevout.vout, k);
    }
  }

  lemma PaymentFollows(s: System, h: History, e: Entry)
    requires s.Valid() && AllFormed(h) && Payment(s, h, e) && forall k :: 0 <= k < |h| ==> h[k].tx != e.tx
    ensures MayFollow(s, h, e)
  {
    hide SpentOutput, WorldAt, TapSpk, LeafBytes, ProgramRan, Untouched, Deployed, Point, Formed;
    assert Grow(h, e)[|h|] == e;
    forall k, i, j | 0 <= k < |h| && 0 <= i < |h[k].tx.inputs| && 0 <= j < |e.tx.inputs| && !h[k].coinbase
      ensures Point(h[k], i) != Point(e, j)
    {
      UntouchedAt(h, Point(e, j), k, i);
    }
  }

  /** Anyone may pay anyone, the program included: such an entry is confirmed whatever outputs it creates. */
  lemma PaymentExtends(s: System, h: History, e: Entry)
    requires Confirmed(s, h) && CollisionFree(s, h) && AllFormed(h) && Payment(s, h, e)
    ensures Confirmed(s, Grow(h, e))
  {
    hide Confirmed, CollisionFree, Payment, MayFollow, System.Valid, AllFormed;
    ConfirmedValid(s, h);
    PaymentNew(s, h, e);
    PaymentFollows(s, h, e);
    Extends(s, h, e);
  }

  lemma UntouchedAt(h: History, at: (nat, nat), k: nat, i: nat)
    requires AllFormed(h) && Untouched(h, at) && k < |h| && i < |h[k].tx.inputs| && !h[k].coinbase
    ensures Point(h[k], i) != at
  {
  }
}
