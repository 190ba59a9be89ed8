// Which error every refused transition returns, and exactly when, from the fields of its input.
module Refusals {
  import opened Bytes
  import opened Transactions
  import opened Statements
  import opened Script
  import opened Accounts
  import opened Transitions

  // ---------- keys ----------

  /** Some key is not canonical, and the accounts before it are canonical and different. */
  predicate BadKeyFirst(c: Crypto, s: seq<Account>) {
    exists k :: 0 <= k < |s| && GoodKeys(c, s[..k]) && !c.keyOk(s[k].key)
  }

  /** Some canonical key repeats an earlier one, and the accounts before it are canonical and different. */
  predicate RepeatedKeyFirst(c: Crypto, s: seq<Account>) {
    exists k, j :: 0 <= j < k < |s| && GoodKeys(c, s[..k]) && c.keyOk(s[k].key) && s[j].key == s[k].key
  }

  /** Once the first `i` accounts are good, the error is that of the first account that is not. */
  lemma {:induction false} KeyErrorFrom(c: Crypto, s: seq<Account>, i: nat)
    requires i <= |s| && GoodKeys(c, s[..i])
    ensures KeyError(c, s, i).None? <==> GoodKeys(c, s)
    ensures KeyError(c, s, i) == Some(InvalidAccountKey) <==> BadKeyFirst(c, s)
    ensures KeyError(c, s, i) == Some(DuplicateAccountKey) <==> RepeatedKeyFirst(c, s)
    ensures KeyError(c, s, i).Some? ==> KeyError(c, s, i).value in {InvalidAccountKey, DuplicateAccountKey}
    decreases |s| - i
  {
    if i == |s| {
      assert s[..i] == s;
      NoneBad(c, s);
    } else if !c.keyOk(s[i].key) {
      FirstBadIs(c, s, i);
    } else if exists j :: 0 <= j < i && s[j].key == s[i].key {
      var j :| 0 <= j < i && s[j].key == s[i].key;
      FirstRepeatIs(c, s, i, j);
    } else {
      assert s[..i + 1] == s[..i] + [s[i]];
      KeyErrorFrom(c, s, i + 1);
    }
  }

  lemma NoneBad(c: Crypto, s: seq<Account>)
    requires GoodKeys(c, s)
    ensures !BadKeyFirst(c, s) && !RepeatedKeyFirst(c, s)
  {
  }

  lemma GoodBelow(c: Crypto, s: seq<Account>, k: nat, j: nat, i: nat)
    requires j < k <= |s| && i < k && GoodKeys(c, s[..k])
    ensures c.keyOk(s[i].key) && (j != i ==> s[j].key != s[i].key)
  {
    assert s[..k][i] == s[i] && s[..k][j] == s[j];
  }

  lemma FirstBadIs(c: Crypto, s: seq<Account>, i: nat)
    requires i < |s| && GoodKeys(c, s[..i]) && !c.keyOk(s[i].key)
    ensures BadKeyFirst(c, s) && !RepeatedKeyFirst(c, s) && !GoodKeys(c, s)
  {
    forall k, j | 0 <= j < k < |s| && GoodKeys(c, s[..k]) ensures !(c.keyOk(s[k].key) && s[j].key == s[k].key) {
      if i < k {
        GoodBelow(c, s, k, i, i);
      } else if k < i {
        GoodBelow(c, s, i, j, k);
      }
    }
  }

  lemma FirstRepeatIs(c: Crypto, s: seq<Account>, i: nat, j: nat)
    requires j < i < |s| && GoodKeys(c, s[..i]) && c.keyOk(s[i].key) && s[j].key == s[i].key
    ensures RepeatedKeyFirst(c, s) && !BadKeyFirst(c, s) && !GoodKeys(c, s)
  {
    forall k | 0 <= k < |s| && GoodKeys(c, s[..k]) ensures c.keyOk(s[k].key) {
      if i < k {
        GoodBelow(c, s, k, j, i);
      } else if k < i {
        GoodBelow(c, s, i, k, k);
      }
    }
  }

  // ---------- collections ----------

  /** The keys are good and the backing is what the balances say. */
  predicate Backed(c: Crypto, s: seq<Account>, backing: nat)
    requires |s| == 3
  {
    GoodKeys(c, s) && backing == 1_000 + s[0].balance + s[1].balance + s[2].balance
  }

  predicate Ordered(c: Crypto, i: Collection)
    requires i.WellFormed()
  {
    Backed(c, i.oldState, i.oldBacking) && LexLess(i.deposits[0].outpoint.Encode(), i.deposits[1].outpoint.Encode())
  }

  /** The first deposit can be credited. */
  predicate FirstFits(i: Collection)
    requires i.WellFormed()
  {
    var d := i.deposits[0];
    d.value > 0 && d.recipient < 3 && i.oldState[d.recipient].balance + d.value < U64
  }

  /** Every refusal of a collection, by its fields and in the order of the checks. */
  lemma CollectionRefusals(c: Crypto, i: Collection)
    requires i.WellFormed()
    ensures var r, s, d, e := CollectionSpec(c, i), i.oldState, i.deposits[0], i.deposits[1];
            var total := 1_000 + s[0].balance + s[1].balance + s[2].balance;
            && (r == Err(InvalidAccountKey) <==> BadKeyFirst(c, s))
            && (r == Err(DuplicateAccountKey) <==> RepeatedKeyFirst(c, s))
            && (r == Err(InvalidBacking) <==> GoodKeys(c, s) && total < U64 && total != i.oldBacking)
            && (r == Err(DepositOrder) <==>
                  Backed(c, s, i.oldBacking) && !LexLess(d.outpoint.Encode(), e.outpoint.Encode()))
            && (r == Err(InvalidDeposit) <==> Ordered(c, i) && (d.value == 0 || (FirstFits(i) && e.value == 0)))
            && (r == Err(InvalidRecipient) <==>
                  Ordered(c, i) && d.value > 0
                    && (d.recipient >= 3 || (FirstFits(i) && e.value > 0 && e.recipient >= 3)))
            && (r == Err(Arithmetic) <==>
                  || (GoodKeys(c, s) && total >= U64)
                  || (Ordered(c, i) && d.value > 0 && d.recipient < 3 && (FirstFits(i) ==>
                        e.value > 0 && e.recipient < 3 && i.oldBacking + d.value + e.value >= U64)))
            && (r.Err? ==>
                  r.error in {InvalidAccountKey, DuplicateAccountKey, InvalidBacking, DepositOrder, InvalidDeposit,
                                       InvalidRecipient, Arithmetic})
  {
    hide LexLess, RootOf, GoodKeys, BadKeyFirst, RepeatedKeyFirst, CollectionStatementOf, KeyError;
    assert GoodKeys(c, i.oldState[..0]) by { assert i.oldState[..0] == []; NoKeys(c); }
    KeyErrorFrom(c, i.oldState, 0);
  }

  lemma NoKeys(c: Crypto)
    ensures GoodKeys(c, [])
  {
  }

  // ---------- settlements ----------

  predicate SupportedByFields(c: Crypto, i: Settlement)
    requires i.WellFormed()
  {
    Backed(c, i.oldState, i.oldBacking) && i.transfer.sender == 0 && i.transfer.recipient == i.oldState[1].key
    && i.transfer.token == c.nativeToken
  }

  /** Account 0 signed the transfer under its present nonce. */
  predicate NativeAuthorized(c: Crypto, i: Settlement)
    requires i.WellFormed()
  {
    SupportedByFields(c, i)
      && c.sigOk(i.oldState[0].key, c.nativeMessage(i.transfer, i.oldState[0].nonce), i.transferSig)
  }

  /** It signed the same transfer for this bridge. */
  predicate ScopeAuthorized(c: Crypto, i: Settlement)
    requires i.WellFormed()
  {
    NativeAuthorized(c, i) &&
    c.sigOk(i.oldState[0].key, ScopedMessage(c, i.bridgeId, c.nativeMessage(i.transfer, i.oldState[0].nonce)),
            i.scopedSig)
  }

  predicate TransferCovered(c: Crypto, i: Settlement)
    requires i.WellFormed()
  {
    && ScopeAuthorized(c, i) && i.transfer.amount + i.transfer.fee <= i.oldState[0].balance
    && i.oldState[0].nonce + 1 < U32
  }

  predicate WithdrawalNamed(c: Crypto, i: Settlement)
    requires i.WellFormed()
  {
    && TransferCovered(c, i) && i.withdrawalNonce == i.oldState[1].nonce && i.withdrawalAmount > 0
    && |i.destination| == 34 && i.destination[0] == 0x51 && i.destination[1] == 0x20
  }

  predicate WithdrawalAuthorized(c: Crypto, i: Settlement)
    requires i.WellFormed()
  {
    && WithdrawalNamed(c, i)
    && c.sigOk(i.oldState[1].key, WithdrawalBytes(i.bridgeId, i.withdrawalNonce, i.withdrawalAmount, i.destination),
               i.withdrawalSig)
  }

  /** Every refusal of a settlement, by its fields and in the order of the checks. */
  lemma SettlementRefusals(c: Crypto, i: Settlement)
    requires i.WellFormed()
    ensures var r, s := SettlementSpec(c, i), i.oldState;
            var total := 1_000 + s[0].balance + s[1].balance + s[2].balance;
            && (r == Err(InvalidAccountKey) <==> BadKeyFirst(c, s))
            && (r == Err(DuplicateAccountKey) <==> RepeatedKeyFirst(c, s))
            && (r == Err(InvalidBacking) <==> GoodKeys(c, s) && total < U64 && total != i.oldBacking)
            && (r == Err(UnsupportedTransfer) <==> Backed(c, s, i.oldBacking) && !SupportedByFields(c, i))
            && (r == Err(InvalidTransferSignature) <==> SupportedByFields(c, i) && !NativeAuthorized(c, i))
            && (r == Err(InvalidScopedTransferSignature) <==> NativeAuthorized(c, i) && !ScopeAuthorized(c, i))
            && (r == Err(InvalidWithdrawal) <==> TransferCovered(c, i) && !WithdrawalNamed(c, i))
            && (r == Err(InvalidWithdrawalSignature) <==> WithdrawalNamed(c, i) && !WithdrawalAuthorized(c, i))
            && (r == Err(Arithmetic) <==>
                  || (GoodKeys(c, s) && total >= U64) || (ScopeAuthorized(c, i) && !TransferCovered(c, i))
                  || (WithdrawalAuthorized(c, i) &&
                      (i.withdrawalAmount > s[1].balance + i.transfer.amount || s[1].nonce + 1 >= U32)))
            && (r.Err? ==> r.error in {InvalidAccountKey, DuplicateAccountKey, InvalidBacking, UnsupportedTransfer,
                                       InvalidTransferSignature, InvalidScopedTransferSignature, InvalidWithdrawal,
                                       InvalidWithdrawalSignature, Arithmetic})
  {
    hide RootOf, GoodKeys, BadKeyFirst, RepeatedKeyFirst, SettlementStatementOf, KeyError, ScopedMessage;
    hide WithdrawalBytes;
    assert GoodKeys(c, i.oldState[..0]) by { assert i.oldState[..0] == []; NoKeys(c); }
    KeyErrorFrom(c, i.oldState, 0);
  }
}
