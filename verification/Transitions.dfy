// The two account transitions, as the imperative code performs them, against a specification without the final
// backing check; and what the specification guarantees.
module Transitions {
  import opened Bytes
  import opened Transactions
  import opened Statements
  import opened Script
  import opened Accounts

  datatype DepositInput = DepositInput(outpoint: OutPoint, value: nat, recipient: nat) {
    predicate WellFormed() { outpoint.WellFormed() && value < U64 && recipient < U32 }
  }

  datatype Collection = Collection(bridgeId: bytes, prevout: OutPoint, oldState: seq<Account>, oldBacking: nat,
                                   deposits: seq<DepositInput>) {
    predicate WellFormed() {
      && |bridgeId| == 32 && prevout.WellFormed() && State(oldState) && oldBacking < U64
      && |deposits| == 2 && deposits[0].WellFormed() && deposits[1].WellFormed()
    }
  }

  datatype Settlement = Settlement(bridgeId: bytes, prevout: OutPoint, oldState: seq<Account>, oldBacking: nat,
                                   transfer: Transfer, transferSig: bytes, scopedSig: bytes,
                                   withdrawalNonce: nat, withdrawalAmount: nat, destination: bytes,
                                     withdrawalSig: bytes) {
    predicate WellFormed() {
      && |bridgeId| == 32 && prevout.WellFormed() && State(oldState) && oldBacking < U64
      && transfer.amount < U64 && transfer.fee < U64 && withdrawalNonce < U32 && withdrawalAmount < U64
      && |destination| < U64
    }
  }

  datatype Transition = Transition(newState: seq<Account>, oldRoot: bytes, newRoot: bytes, newBacking: nat,
                                   statement: bytes)

  datatype ProofInput = Collect(collection: Collection) | Settle(settlement: Settlement) {
    predicate WellFormed() { match this case Collect(i) => i.WellFormed() case Settle(i) => i.WellFormed() }
  }

  // ---------- shared ----------

  method StatementPrefix(action: byte, h: Header) returns (output: bytes)
    ensures output == Prefix(action, h)
  {
    output := [];
    output := output + STATEMENT_DOMAIN;
    output := output + [PROTOCOL_VERSION];
    output := output + [action];
    output := output + h.bridgeId;
    output := output + h.prevout.Encode();
    output := output + h.oldRoot;
    output := output + h.newRoot;
    output := output + LE(h.oldBacking, 8);
    output := output + LE(h.newBacking, 8);
  }

  method EncodeCompactSize(value: nat, output: bytes) returns (extended: bytes)
    requires value < U64
    ensures extended == output + CompactSize(value)
  {
    extended := output;
    if value <= 0xfc {
      extended := extended + [value];
    } else if value <= 0xffff {
      extended := extended + [0xfd];
      extended := extended + LE(value, 2);
    } else if value <= 0xffff_ffff {
      extended := extended + [0xfe];
      extended := extended + LE(value, 4);
    } else {
      extended := extended + [0xff];
      extended := extended + LE(value, 8);
    }
  }

  // ---------- collection ----------

  function Credit(s: seq<Account>, d: DepositInput): seq<Account>
    requires |s| == 3 && d.recipient < 3
  {
    s[d.recipient := s[d.recipient].(balance := s[d.recipient].balance + d.value)]
  }

  function CheckedCredit(s: seq<Account>, d: DepositInput): Result<seq<Account>>
    requires |s| == 3
  {
    if d.value == 0 then Err(InvalidDeposit)
    else if d.recipient >= 3 then Err(InvalidRecipient)
    else if s[d.recipient].balance + d.value >= U64 then Err(Arithmetic)
    else Ok(Credit(s, d))
  }

  function RecordOf(s: seq<Account>, d: DepositInput): Record
    requires |s| == 3 && d.recipient < 3
  {
    Record(d.outpoint, d.value, d.recipient, s[d.recipient].key)
  }

  /** The statement of a collection that ends in `s`. */
  function CollectionStatementOf(c: Crypto, i: Collection, s: seq<Account>): Statement
    requires i.WellFormed() && |s| == 3 && i.deposits[0].recipient < 3 && i.deposits[1].recipient < 3
  {
    var d, e := i.deposits[0], i.deposits[1];
    CollectTwo(Header(i.bridgeId, i.prevout, RootOf(c.sha, i.oldState), RootOf(c.sha, s), i.oldBacking,
                      i.oldBacking + d.value + e.value), RecordOf(i.oldState, d), RecordOf(i.oldState, e))
  }

  /** Which error comes first, or the transition; the final backing check does not appear. */
  function CollectionSpec(c: Crypto, i: Collection): Result<Transition>
    requires i.WellFormed()
  {
    var d, e := i.deposits[0], i.deposits[1];
    if KeyError(c, i.oldState, 0).Some? then Err(KeyError(c, i.oldState, 0).value)
    else if Total(i.oldState) >= U64 then Err(Arithmetic)
    else if Total(i.oldState) != i.oldBacking then Err(InvalidBacking)
    else if !LexLess(d.outpoint.Encode(), e.outpoint.Encode()) then Err(DepositOrder)
    else match CheckedCredit(i.oldState, d)
      case Err(x) => Err(x)
      case Ok(s1) =>
        match CheckedCredit(s1, e)
        case Err(x) => Err(x)
        case Ok(s2) =>
          if i.oldBacking + d.value + e.value >= U64 then Err(Arithmetic)
          else
            var st := CollectionStatementOf(c, i, s2);
            Ok(Transition(s2, st.h.oldRoot, st.h.newRoot, st.h.newBacking, st.Encode()))
  }

  method ApplyCollection(c: Crypto, i: Collection) returns (r: Result<Transition>)
    requires i.WellFormed()
    ensures r == CollectionSpec(c, i)
  {
    var keyError := Validate(c, i.oldState);
    if keyError.Some? {
      return Err(keyError.value);
    }
    var backingError := RequireBacking(i.oldState, i.oldBacking);
    if backingError.Some? {
      return Err(backingError.value);
    }
    if !LexLess(i.deposits[0].outpoint.Encode(), i.deposits[1].outpoint.Encode()) {
      return Err(DepositOrder);
    }
    var credited := CreditAll(i);
    if credited.Err? {
      return Err(credited.error);
    }
    var newState := credited.value;
    var newBacking := DepositedBacking(i);
    if newBacking.Err? {
      return Err(newBacking.error);
    }
    CreditTotals(i.oldState, i.deposits[0], i.deposits[1]);
    var finalError := RequireBacking(newState, newBacking.value);
    assert finalError.None?; // the error return after this check is never taken
    var oldRoot := Root(c.sha, i.oldState);
    var newRoot := Root(c.sha, newState);
    var statement := StatementPrefix(COLLECT_TWO,
                                     Header(i.bridgeId, i.prevout, oldRoot, newRoot, i.oldBacking, newBacking.value));
    statement := AppendRecords(i, statement);
    r := Ok(Transition(newState, oldRoot, newRoot, newBacking.value, statement));
  }

  /** The loop that adds each deposit to its recipient. */
  method CreditAll(i: Collection) returns (r: Result<seq<Account>>)
    requires i.WellFormed()
    ensures r == match CheckedCredit(i.oldState, i.deposits[0])
                 case Err(x) => Err(x)
                 case Ok(s) => CheckedCredit(s, i.deposits[1])
    ensures r.Ok? ==> State(r.value)
  {
    var newState := i.oldState;
    var k := 0;
    while k < 2
      invariant 0 <= k <= 2 && State(newState)
      invariant k == 0 ==> newState == i.oldState
      invariant k == 1 ==> CheckedCredit(i.oldState, i.deposits[0]) == Ok(newState)
      invariant k == 2 ==> match CheckedCredit(i.oldState, i.deposits[0])
                           case Err(x) => false
                           case Ok(s) => CheckedCredit(s, i.deposits[1]) == Ok(newState)
    {
      var deposit := i.deposits[k];
      if deposit.value == 0 {
        return Err(InvalidDeposit);
      }
      if deposit.recipient >= |newState| {
        return Err(InvalidRecipient);
      }
      var account := newState[deposit.recipient];
      var balance := CheckedAdd(account.balance, deposit.value);
      if balance.Err? {
        return Err(balance.error);
      }
      newState := newState[deposit.recipient := account.(balance := balance.value)];
      k := k + 1;
    }
    r := Ok(newState);
  }

  method DepositedBacking(i: Collection) returns (r: Result<nat>)
    requires i.WellFormed()
    ensures r == CheckedAdd(i.oldBacking, i.deposits[0].value + i.deposits[1].value)
  {
    var sum := 0;
    var k := 0;
    while k < 2
      invariant 0 <= k <= 2 && sum < U64
      invariant sum == (if k > 0 then i.deposits[0].value else 0) + (if k > 1 then i.deposits[1].value else 0)
    {
      var added := CheckedAdd(sum, i.deposits[k].value);
      if added.Err? {
        return Err(added.error);
      }
      sum := added.value;
      k := k + 1;
    }
    r := CheckedAdd(i.oldBacking, sum);
  }

  method AppendRecords(i: Collection, prefix: bytes) returns (statement: bytes)
    requires i.WellFormed() && i.deposits[0].recipient < 3 && i.deposits[1].recipient < 3
    ensures statement
            == prefix + RecordOf(i.oldState, i.deposits[0]).Encode() + RecordOf(i.oldState, i.deposits[1]).Encode()
  {
    statement := prefix;
    var k := 0;
    while k < 2
      invariant 0 <= k <= 2
      invariant k == 0 ==> statement == prefix
      invariant k == 1 ==> statement == prefix + RecordOf(i.oldState, i.deposits[0]).Encode()
      invariant k == 2 ==>
                  statement == prefix + RecordOf(i.oldState, i.deposits[0]).Encode()
                               + RecordOf(i.oldState, i.deposits[1]).Encode()
    {
      var deposit := i.deposits[k];
      var before := statement;
      statement := statement + deposit.outpoint.Encode();
      statement := statement + LE(deposit.value, 8);
      statement := statement + LE(deposit.recipient, 4);
      statement := statement + i.oldState[deposit.recipient].key;
      assert statement == before + RecordOf(i.oldState, deposit).Encode();
      k := k + 1;
    }
  }

  /** Crediting raises the total by exactly the value, whoever receives it. */
  lemma CreditTotal(s: seq<Account>, d: DepositInput)
    requires |s| == 3 && d.recipient < 3
    ensures Total(Credit(s, d)) == Total(s) + d.value
  {
  }

  lemma CreditTotals(s: seq<Account>, d: DepositInput, e: DepositInput)
    requires |s| == 3
    ensures d.recipient < 3 && e.recipient < 3 ==> Total(Credit(Credit(s, d), e)) == Total(s) + d.value + e.value
  {
    if d.recipient < 3 && e.recipient < 3 {
      CreditTotal(s, d);
      CreditTotal(Credit(s, d), e);
    }
  }

  // ---------- what a collection guarantees ----------

  /** The new balances: same-recipient deposits accumulate. */
  predicate CreditsExactly(i: Collection, s: seq<Account>)
    requires i.WellFormed()
  {
    && |s| == 3
    && forall k :: 0 <= k < 3 ==>
         && s[k].key == i.oldState[k].key && s[k].nonce == i.oldState[k].nonce
         && s[k].balance == i.oldState[k].balance + (if i.deposits[0].recipient == k then i.deposits[0].value else 0)
                                                  + (if i.deposits[1].recipient == k then i.deposits[1].value else 0)
  }

  /** A collection succeeds exactly under these conditions; the credited balances then never overflow and the final
      backing check never fails. */
  lemma CollectionExact(c: Crypto, i: Collection)
    requires i.WellFormed()
    ensures CollectionSpec(c, i).Ok? <==>
            && GoodKeys(c, i.oldState) && Total(i.oldState) == i.oldBacking
            && LexLess(i.deposits[0].outpoint.Encode(), i.deposits[1].outpoint.Encode())
            && i.deposits[0].value > 0 && i.deposits[1].value > 0 && i.deposits[0].recipient < 3
            && i.deposits[1].recipient < 3
            && i.oldBacking + i.deposits[0].value + i.deposits[1].value < U64
  {
    KeyErrorMeans(c, i.oldState, 0);
  }

  lemma LexDistinct(a: bytes)
    ensures !LexLess(a, a)
  {
    LexIsNumeric(a, a);
  }

  /** What holds after a collection. */
  lemma CollectionGuarantees(c: Crypto, i: Collection)
    requires i.WellFormed() && CollectionSpec(c, i).Ok?
    ensures var t, d, e := CollectionSpec(c, i).value, i.deposits[0], i.deposits[1];
            && State(t.newState) && CreditsExactly(i, t.newState)
            && t.newBacking == Total(t.newState) == i.oldBacking + d.value + e.value && t.newBacking >= RESERVE
            && d.outpoint != e.outpoint && d.recipient < 3 && e.recipient < 3
            && t.oldRoot == RootOf(c.sha, i.oldState) && t.newRoot == RootOf(c.sha, t.newState)
            && CollectionStatementOf(c, i, t.newState).WellFormed()
            && t.statement == CollectionStatementOf(c, i, t.newState).Encode()
  {
    hide RootPreimage;
    var d, e := i.deposits[0], i.deposits[1];
    LexDistinct(d.outpoint.Encode());
    CreditTotals(i.oldState, d, e);
  }

  // ---------- settlement ----------

  function ScopedMessage(c: Crypto, bridgeId: bytes, native: bytes): bytes {
    TRANSFER_AUTH_DOMAIN + bridgeId + Sha(c.sha, native)
  }

  /** A transfer scoped to one bridge authorizes nothing in another: the message determines the bridge and the hash of
      the native message. */
  lemma ScopedInjective(c: Crypto, a: bytes, m: bytes, b: bytes, n: bytes)
    requires |a| == 32 && |b| == 32 && ScopedMessage(c, a, m) == ScopedMessage(c, b, n)
    ensures a == b && Sha(c.sha, m) == Sha(c.sha, n)
  {
    hide Sha;
    Peel(TRANSFER_AUTH_DOMAIN + a, Sha(c.sha, m), TRANSFER_AUTH_DOMAIN + b, Sha(c.sha, n));
    Peel(TRANSFER_AUTH_DOMAIN, a, TRANSFER_AUTH_DOMAIN, b);
  }

  /** Among all bridges and native messages, the message belongs to this bridge and this hash alone. */
  ghost predicate OnlyFor(c: Crypto, message: bytes, bridgeId: bytes, native: bytes) {
    forall id, other :: |id| == 32 ==>
      (ScopedMessage(c, id, other) == message <==> id == bridgeId && Sha(c.sha, other) == Sha(c.sha, native))
  }

  /** The message of one bridge and one native message, up to the hash of the latter: in no other bridge is it the
      message of anything. */
  method ScopedTransferMessage(c: Crypto, bridgeId: bytes, native: bytes) returns (message: bytes)
    requires |bridgeId| == 32
    ensures message == ScopedMessage(c, bridgeId, native) && |message| == |TRANSFER_AUTH_DOMAIN| + 64
    ensures OnlyFor(c, message, bridgeId, native)
  {
    forall id, other | |id| == 32 && ScopedMessage(c, id, other) == ScopedMessage(c, bridgeId, native)
      ensures id == bridgeId && Sha(c.sha, other) == Sha(c.sha, native)
    {
      ScopedInjective(c, id, other, bridgeId, native);
    }
    message := TRANSFER_AUTH_DOMAIN;
    message := message + bridgeId;
    message := message + Sha(c.sha, native);
  }

  /** A payout script the relation accepts: 34 bytes beginning with the version-one witness push. */
  predicate TaprootScript(b: bytes) { |b| == 34 && b[0] == 0x51 && b[1] == 0x20 }

  function WithdrawalBytes(bridgeId: bytes, nonce: nat, amount: nat, destination: bytes): bytes {
    WITHDRAWAL_DOMAIN + bridgeId + LE(WITHDRAWAL_ACCOUNT, 4) + LE(nonce, 4) + LE(amount, 8)
      + CompactSize(|destination|) + destination
  }

  method WithdrawalMessage(bridgeId: bytes, nonce: nat, amount: nat, destination: bytes) returns (r: Result<bytes>)
    requires |destination| < U64
    ensures r == if amount == 0 || !TaprootScript(destination) then Err(InvalidWithdrawal)
                 else Ok(WithdrawalBytes(bridgeId, nonce, amount, destination))
  {
    if amount == 0 || |destination| != 34 || destination[..2] != [0x51, 0x20] {
      return Err(InvalidWithdrawal);
    }
    var message := WITHDRAWAL_DOMAIN;
    message := message + bridgeId;
    message := message + LE(WITHDRAWAL_ACCOUNT, 4);
    message := message + LE(nonce, 4);
    message := message + LE(amount, 8);
    message := EncodeCompactSize(|destination|, message);
    message := message + destination;
    r := Ok(message);
  }

  /** A withdrawal message authorizes one amount to one script, once, in one bridge. */
  lemma WithdrawalInjective(a: bytes, m: nat, v: nat, d: bytes, b: bytes, n: nat, u: nat, e: bytes)
    requires |a| == 32 && |b| == 32 && m < U32 && n < U32 && v < U64 && u < U64 && TaprootScript(d) && TaprootScript(e)
    requires WithdrawalBytes(a, m, v, d) == WithdrawalBytes(b, n, u, e)
    ensures a == b && m == n && v == u && d == e
  {
    hide LE, CompactSize;
    var i, z := LE(WITHDRAWAL_ACCOUNT, 4), CompactSize(34);
    Peel(WITHDRAWAL_DOMAIN + a + i + LE(m, 4) + LE(v, 8) + z, d, WITHDRAWAL_DOMAIN + b + i + LE(n, 4) + LE(u, 8) + z,
         e);
    Peel(WITHDRAWAL_DOMAIN + a + i + LE(m, 4) + LE(v, 8), z, WITHDRAWAL_DOMAIN + b + i + LE(n, 4) + LE(u, 8), z);
    Peel(WITHDRAWAL_DOMAIN + a + i + LE(m, 4), LE(v, 8), WITHDRAWAL_DOMAIN + b + i + LE(n, 4), LE(u, 8));
    Peel(WITHDRAWAL_DOMAIN + a + i, LE(m, 4), WITHDRAWAL_DOMAIN + b + i, LE(n, 4));
    Peel(WITHDRAWAL_DOMAIN + a, i, WITHDRAWAL_DOMAIN + b, i);
    Peel(WITHDRAWAL_DOMAIN, a, WITHDRAWAL_DOMAIN, b);
    Pow256Values();
    LEInjective(m, n, 4);
    LEInjective(v, u, 8);
  }

  /** No signed transfer is a signed withdrawal: the two domains part. */
  lemma MessagesApart(c: Crypto, a: bytes, native: bytes, b: bytes, n: nat, u: nat, d: bytes)
    ensures ScopedMessage(c, a, native) != WithdrawalBytes(b, n, u, d)
  {
    hide Sha, LE, CompactSize;
    assert ScopedMessage(c, a, native)[13] == TRANSFER_AUTH_DOMAIN[13] == 0x74;
    assert WithdrawalBytes(b, n, u, d)[13] == WITHDRAWAL_DOMAIN[13] == 0x77;
  }

  function NativeOf(c: Crypto, i: Settlement): bytes
    requires i.WellFormed()
  {
    c.nativeMessage(i.transfer, i.oldState[TRANSFER_SENDER].nonce)
  }

  predicate SupportedTransfer(c: Crypto, i: Settlement)
    requires i.WellFormed()
  {
    && i.transfer.sender == TRANSFER_SENDER && i.transfer.recipient == i.oldState[WITHDRAWAL_ACCOUNT].key
    && i.transfer.token == c.nativeToken
  }

  predicate TransferSigned(c: Crypto, i: Settlement)
    requires i.WellFormed()
  {
    c.sigOk(i.oldState[TRANSFER_SENDER].key, NativeOf(c, i), i.transferSig)
  }

  predicate ScopedSigned(c: Crypto, i: Settlement)
    requires i.WellFormed()
  {
    c.sigOk(i.oldState[TRANSFER_SENDER].key, ScopedMessage(c, i.bridgeId, NativeOf(c, i)), i.scopedSig)
  }

  function WithdrawalOf(i: Settlement): bytes {
    WithdrawalBytes(i.bridgeId, i.withdrawalNonce, i.withdrawalAmount, i.destination)
  }

  predicate WithdrawalSigned(c: Crypto, i: Settlement)
    requires i.WellFormed()
  {
    c.sigOk(i.oldState[WITHDRAWAL_ACCOUNT].key, WithdrawalOf(i), i.withdrawalSig)
  }

  /** The accounts after a settlement whose two debits are covered. */
  function Settled(i: Settlement): seq<Account>
    requires i.WellFormed() && i.transfer.amount + i.transfer.fee <= i.oldState[0].balance
    requires i.withdrawalAmount <= i.oldState[1].balance + i.transfer.amount
  {
    var s, t := i.oldState, i.transfer;
    [Account(s[0].key, s[0].balance - t.amount - t.fee, s[0].nonce + 1),
     Account(s[1].key, s[1].balance + t.amount - i.withdrawalAmount, s[1].nonce + 1),
     Account(s[2].key, s[2].balance + t.fee, s[2].nonce)]
  }

  function SettlementStatementOf(c: Crypto, i: Settlement, s: seq<Account>): Statement
    requires i.WellFormed() && |s| == 3 && i.withdrawalAmount <= i.oldBacking
  {
    var native := NativeOf(c, i);
    TransferWithdraw(Header(i.bridgeId, i.prevout, RootOf(c.sha, i.oldState), RootOf(c.sha, s), i.oldBacking,
                            i.oldBacking - i.withdrawalAmount),
                     Sha(c.sha, native), Sha(c.sha, ScopedMessage(c, i.bridgeId, native)), Sha(c.sha, WithdrawalOf(i)),
                     TxOut(i.withdrawalAmount, i.destination))
  }

  /** Which error comes first, or the transition; four checks of the code do not appear, as they never fail. */
  function SettlementSpec(c: Crypto, i: Settlement): Result<Transition>
    requires i.WellFormed()
  {
    var s, t := i.oldState, i.transfer;
    if KeyError(c, s, 0).Some? then Err(KeyError(c, s, 0).value)
    else if Total(s) >= U64 then Err(Arithmetic)
    else if Total(s) != i.oldBacking then Err(InvalidBacking)
    else if !SupportedTransfer(c, i) then Err(UnsupportedTransfer)
    else if !TransferSigned(c, i) then Err(InvalidTransferSignature)
    else if !ScopedSigned(c, i) then Err(InvalidScopedTransferSignature)
    else if t.amount + t.fee > s[0].balance || s[0].nonce + 1 >= U32 then Err(Arithmetic)
    else if i.withdrawalNonce != s[1].nonce || i.withdrawalAmount == 0
      || !TaprootScript(i.destination) then Err(InvalidWithdrawal)
    else if !WithdrawalSigned(c, i) then Err(InvalidWithdrawalSignature)
    else if i.withdrawalAmount > s[1].balance + t.amount || s[1].nonce + 1 >= U32 then Err(Arithmetic)
    else
      WithdrawalCovered(i);
      var st := SettlementStatementOf(c, i, Settled(i));
      Ok(Transition(Settled(i), st.h.oldRoot, st.h.newRoot, st.h.newBacking, st.Encode()))
  }

  /** Once both debits are covered the withdrawal never reaches into the reserve. */
  lemma WithdrawalCovered(i: Settlement)
    requires i.WellFormed() && Total(i.oldState) == i.oldBacking
    requires i.transfer.amount + i.transfer.fee <= i.oldState[0].balance
    requires i.withdrawalAmount <= i.oldState[1].balance + i.transfer.amount
    ensures i.withdrawalAmount + RESERVE <= i.oldBacking
    ensures Total(Settled(i)) == i.oldBacking - i.withdrawalAmount
  {
  }

  method ApplySettlement(c: Crypto, i: Settlement) returns (r: Result<Transition>)
    requires i.WellFormed()
    ensures r == SettlementSpec(c, i)
  {
    hide OnlyFor, ScopedMessage, WithdrawalBytes, KeyError;
    var keyError := Validate(c, i.oldState);
    if keyError.Some? {
      return Err(keyError.value);
    }
    var backingError := RequireBacking(i.oldState, i.oldBacking);
    if backingError.Some? {
      return Err(backingError.value);
    }
    var transfer, sender := i.transfer, i.oldState[TRANSFER_SENDER];
    if transfer.sender != TRANSFER_SENDER || transfer.recipient != i.oldState[WITHDRAWAL_ACCOUNT].key
        || transfer.token != c.nativeToken {
      return Err(UnsupportedTransfer);
    }
    var native := c.nativeMessage(transfer, sender.nonce);
    if !c.sigOk(sender.key, native, i.transferSig) {
      return Err(InvalidTransferSignature);
    }
    var scoped := ScopedTransferMessage(c, i.bridgeId, native);
    if !c.sigOk(sender.key, scoped, i.scopedSig) {
      return Err(InvalidScopedTransferSignature);
    }
    var moved := MoveTransfer(i);
    if moved.Err? {
      return Err(moved.error);
    }
    var newState := moved.value;
    var withdrawing := newState[WITHDRAWAL_ACCOUNT];
    if i.withdrawalNonce != withdrawing.nonce {
      return Err(InvalidWithdrawal);
    }
    var message := WithdrawalMessage(i.bridgeId, i.withdrawalNonce, i.withdrawalAmount, i.destination);
    if message.Err? {
      return Err(message.error);
    }
    if !c.sigOk(withdrawing.key, message.value, i.withdrawalSig) {
      return Err(InvalidWithdrawalSignature);
    }
    var balance := CheckedSub(withdrawing.balance, i.withdrawalAmount);
    if balance.Err? {
      return Err(balance.error);
    }
    if withdrawing.nonce + 1 >= U32 {
      return Err(Arithmetic);
    }
    newState := newState[WITHDRAWAL_ACCOUNT := withdrawing.(balance := balance.value, nonce := withdrawing.nonce + 1)];
    assert newState[0] == Settled(i)[0] && newState[1] == Settled(i)[1] && newState[2] == Settled(i)[2];
    assert newState == Settled(i);
    WithdrawalCovered(i);
    var newBacking := CheckedSub(i.oldBacking, i.withdrawalAmount);
    assert newBacking.Ok?; // never an underflow
    var finalError := RequireBacking(newState, newBacking.value);
    assert finalError.None?; // the error return after this check is never taken
    r := FinishSettlement(c, i, native, scoped, message.value, newState);
  }

  /** The debit of the sender and the credits of the recipient and the fee account, with their nonce and checks. */
  method MoveTransfer(i: Settlement) returns (r: Result<seq<Account>>)
    requires i.WellFormed() && Total(i.oldState) == i.oldBacking
    ensures var s, t := i.oldState, i.transfer;
            if t.amount + t.fee > s[0].balance || s[0].nonce + 1 >= U32 then r == Err(Arithmetic)
            else r == Ok([Account(s[0].key, s[0].balance - t.amount - t.fee, s[0].nonce + 1),
                          s[1].(balance := s[1].balance + t.amount), s[2].(balance := s[2].balance + t.fee)])
  {
    var newState, transfer, sender := i.oldState, i.transfer, i.oldState[TRANSFER_SENDER];
    var debit := CheckedAdd(transfer.amount, transfer.fee);
    if debit.Err? {
      return Err(debit.error);
    }
    var balance := CheckedSub(sender.balance, debit.value);
    if balance.Err? {
      return Err(balance.error);
    }
    newState := newState[TRANSFER_SENDER := newState[TRANSFER_SENDER].(balance := balance.value)];
    if sender.nonce + 1 >= U32 {
      return Err(Arithmetic);
    }
    newState := newState[TRANSFER_SENDER := newState[TRANSFER_SENDER].(nonce := sender.nonce + 1)];
    var received := CheckedAdd(newState[WITHDRAWAL_ACCOUNT].balance, transfer.amount);
    assert received.Ok?; // the sender's balance covered it, and the old total fitted
    newState := newState[WITHDRAWAL_ACCOUNT := newState[WITHDRAWAL_ACCOUNT].(balance := received.value)];
    var fees := CheckedAdd(newState[FEE_ACCOUNT].balance, transfer.fee);
    assert fees.Ok?;
    newState := newState[FEE_ACCOUNT := newState[FEE_ACCOUNT].(balance := fees.value)];
    assert newState == [newState[0], newState[1], newState[2]];
    r := Ok(newState);
  }

  method FinishSettlement(c: Crypto, i: Settlement, native: bytes, scoped: bytes, withdrawal: bytes,
                          newState: seq<Account>)
    returns (r: Result<Transition>)
    requires i.WellFormed() && |newState| == 3 && i.withdrawalAmount <= i.oldBacking && |i.destination| == 34
    requires native == NativeOf(c, i) && scoped == ScopedMessage(c, i.bridgeId, native) && withdrawal == WithdrawalOf(i)
    ensures var st := SettlementStatementOf(c, i, newState);
            r == Ok(Transition(newState, st.h.oldRoot, st.h.newRoot, st.h.newBacking, st.Encode()))
  {
    hide Prefix, RootPreimage, LE, WithdrawalOf;
    var oldRoot := Root(c.sha, i.oldState);
    var newRoot := Root(c.sha, newState);
    var newBacking := i.oldBacking - i.withdrawalAmount;
    var prefix := StatementPrefix(TRANSFER_WITHDRAW,
                                  Header(i.bridgeId, i.prevout, oldRoot, newRoot, i.oldBacking, newBacking));
    var statement := prefix + Sha(c.sha, native);
    statement := statement + Sha(c.sha, scoped);
    statement := statement + Sha(c.sha, withdrawal);
    ghost var digests := statement;
    statement := statement + LE(i.withdrawalAmount, 8);
    statement := EncodeCompactSize(|i.destination|, statement);
    statement := statement + i.destination;
    assert statement == digests + TxOut(i.withdrawalAmount, i.destination).Encode();
    r := Ok(Transition(newState, oldRoot, newRoot, newBacking, statement));
  }

  /** A settlement succeeds exactly under these conditions on its input. */
  lemma SettlementExact(c: Crypto, i: Settlement)
    requires i.WellFormed()
    ensures SettlementSpec(c, i).Ok? <==>
            && GoodKeys(c, i.oldState) && Total(i.oldState) == i.oldBacking
            && SupportedTransfer(c, i) && TransferSigned(c, i) && ScopedSigned(c, i) && WithdrawalSigned(c, i)
            && i.transfer.amount + i.transfer.fee <= i.oldState[0].balance
            && i.withdrawalNonce == i.oldState[1].nonce
            && 0 < i.withdrawalAmount <= i.oldState[1].balance + i.transfer.amount
            && TaprootScript(i.destination) && i.oldState[0].nonce + 1 < U32 && i.oldState[1].nonce + 1 < U32
  {
    KeyErrorMeans(c, i.oldState, 0);
  }

  /** Where a settlement moves the money: the sender pays amount and fee, the recipient takes the amount and pays the
      withdrawal, and the third account takes the fee. */
  predicate MovesExactly(i: Settlement, s: seq<Account>)
    requires i.WellFormed()
  {
    && |s| == 3
    && s[0].balance == i.oldState[0].balance - i.transfer.amount - i.transfer.fee
    && s[1].balance == i.oldState[1].balance + i.transfer.amount - i.withdrawalAmount
    && s[2].balance == i.oldState[2].balance + i.transfer.fee
  }

  /** What holds after a settlement. */
  lemma SettlementGuarantees(c: Crypto, i: Settlement)
    requires i.WellFormed() && SettlementSpec(c, i).Ok?
    ensures var t, s := SettlementSpec(c, i).value, i.oldState;
            && State(t.newState) && t.newBacking == Total(t.newState) == i.oldBacking - i.withdrawalAmount
            && t.newBacking >= RESERVE
            && MovesExactly(i, t.newState) && (forall k :: 0 <= k < 3 ==> t.newState[k].key == s[k].key)
            && t.newState[0].nonce == s[0].nonce + 1 && t.newState[1].nonce == s[1].nonce + 1
            && t.newState[2].nonce == s[2].nonce
            && i.withdrawalNonce == s[1].nonce && i.withdrawalAmount <= i.oldBacking && TaprootScript(i.destination)
            && t.oldRoot == RootOf(c.sha, i.oldState) && t.newRoot == RootOf(c.sha, t.newState)
            && SettlementStatementOf(c, i, t.newState).WellFormed()
            && t.statement == SettlementStatementOf(c, i, t.newState).Encode()
  {
    hide RootPreimage, WithdrawalBytes;
    WithdrawalCovered(i);
  }

  // ---------- proof inputs ----------

  function Transitioned(c: Crypto, i: ProofInput): Result<Transition>
    requires i.WellFormed()
  {
    match i case Collect(x) => CollectionSpec(c, x) case Settle(x) => SettlementSpec(c, x)
  }

  /** `validate_proof_input`: the statement a proof for this input would carry. */
  method ValidateProofInput(c: Crypto, i: ProofInput) returns (r: Result<bytes>)
    requires i.WellFormed()
    ensures r == match Transitioned(c, i) case Ok(t) => Ok(t.statement) case Err(e) => Err(e)
  {
    var t: Result<Transition>;
    match i {
      case Collect(x) => t := ApplyCollection(c, x);
      case Settle(x) => t := ApplySettlement(c, x);
    }
    r := if t.Ok? then Ok(t.value.statement) else Err(t.error);
  }
}
