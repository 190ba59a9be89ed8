// The account relation a proof attests: two transitions over three accounts, with checked machine arithmetic, and
// the statement each emits.
module Accounts {
  import opened Bytes
  import opened Transactions
  import opened Statements
  import opened Script

  const RESERVE: nat := 1_000
  const TRANSFER_SENDER: nat := 0
  const WITHDRAWAL_ACCOUNT: nat := 1
  const FEE_ACCOUNT: nat := 2

  /** `coins-gsr-v1/accounts` and a zero byte. */
  const ACCOUNT_ROOT_DOMAIN: bytes := [
    0x63, 0x6f, 0x69, 0x6e, 0x73, 0x2d, 0x67, 0x73, 0x72, 0x2d, 0x76, 0x31,
    0x2f, 0x61, 0x63, 0x63, 0x6f, 0x75, 0x6e, 0x74, 0x73, 0x00]

  /** `coins-gsr-v1/transfer-auth/regtest` and a zero byte. */
  const TRANSFER_AUTH_DOMAIN: bytes := [
    0x63, 0x6f, 0x69, 0x6e, 0x73, 0x2d, 0x67, 0x73, 0x72, 0x2d, 0x76, 0x31,
    0x2f, 0x74, 0x72, 0x61, 0x6e, 0x73, 0x66, 0x65, 0x72, 0x2d, 0x61, 0x75, 0x74, 0x68,
    0x2f, 0x72, 0x65, 0x67, 0x74, 0x65, 0x73, 0x74, 0x00]

  /** `coins-gsr-v1/withdrawal/regtest` and a zero byte. */
  const WITHDRAWAL_DOMAIN: bytes := [
    0x63, 0x6f, 0x69, 0x6e, 0x73, 0x2d, 0x67, 0x73, 0x72, 0x2d, 0x76, 0x31,
    0x2f, 0x77, 0x69, 0x74, 0x68, 0x64, 0x72, 0x61, 0x77, 0x61, 0x6c,
    0x2f, 0x72, 0x65, 0x67, 0x74, 0x65, 0x73, 0x74, 0x00]

  datatype Error = InvalidAccountKey | DuplicateAccountKey | InvalidBacking | InvalidDeposit | DepositOrder
                 | InvalidRecipient | Arithmetic | UnsupportedTransfer | InvalidTransferSignature
                 | InvalidScopedTransferSignature | InvalidWithdrawal | InvalidWithdrawalSignature

  datatype Result<+T> = Ok(value: T) | Err(error: Error)

  datatype Transfer = Transfer(sender: nat, recipient: bytes, token: nat, amount: nat, fee: nat)

  /** The external cryptography: which key encodings are canonical points, which signatures verify, and the message
      the transfer library signs. */
  datatype Crypto = Crypto(sha: Hash, keyOk: bytes -> bool, sigOk: (bytes, bytes, bytes) -> bool,
                           nativeMessage: (Transfer, nat) -> bytes, nativeToken: nat)

  datatype Account = Account(key: bytes, balance: nat, nonce: nat) {
    predicate WellFormed() { |key| == 32 && balance < U64 && nonce < U32 }
  }

  /** Three accounts in machine widths. */
  predicate State(s: seq<Account>) { |s| == 3 && s[0].WellFormed() && s[1].WellFormed() && s[2].WellFormed() }

  // ---------- root ----------

  function AccountBytes(id: nat, a: Account): bytes { LE(id, 4) + a.key + LE(a.balance, 8) + LE(a.nonce, 4) }

  function RootPreimage(s: seq<Account>): bytes
    requires |s| == 3
  {
    ACCOUNT_ROOT_DOMAIN + AccountBytes(0, s[0]) + AccountBytes(1, s[1]) + AccountBytes(2, s[2])
  }

  function RootOf(sha: Hash, s: seq<Account>): (r: bytes)
    requires |s| == 3
    ensures |r| == 32
  {
    Sha(sha, RootPreimage(s))
  }

  /** `AccountState::root`: the hasher is fed piece by piece. */
  method Root(sha: Hash, s: seq<Account>) returns (root: bytes)
    requires |s| == 3
    ensures root == RootOf(sha, s)
  {
    var fed := ACCOUNT_ROOT_DOMAIN;
    var id := 0;
    while id < 3
      invariant 0 <= id <= 3
      invariant id == 0 ==> fed == ACCOUNT_ROOT_DOMAIN
      invariant id == 1 ==> fed == ACCOUNT_ROOT_DOMAIN + AccountBytes(0, s[0])
      invariant id == 2 ==> fed == ACCOUNT_ROOT_DOMAIN + AccountBytes(0, s[0]) + AccountBytes(1, s[1])
      invariant id == 3 ==> fed == RootPreimage(s)
    {
      var before := fed;
      fed := fed + LE(id, 4);
      fed := fed + s[id].key;
      fed := fed + LE(s[id].balance, 8);
      fed := fed + LE(s[id].nonce, 4);
      assert fed == before + AccountBytes(id, s[id]);
      id := id + 1;
    }
    root := Sha(sha, fed);
  }

  /** `account_root` of the deployment scripts: three 32-byte keys, as many balances and nonces, and every number
      within its width, or an exception. */
  method AccountRoot(sha: Hash, keys: seq<bytes>, balances: seq<int>, nonces: seq<int>) returns (root: Option<bytes>)
    ensures root.Some? <==>
            && |keys| == |balances| == |nonces| == 3
            && forall i :: 0 <= i < 3 ==> |keys[i]| == 32 && 0 <= balances[i] < U64 && 0 <= nonces[i] < U32
    ensures root.Some? ==> root.value == RootOf(sha, [Account(keys[0], balances[0], nonces[0]),
                                                      Account(keys[1], balances[1], nonces[1]),
                                                      Account(keys[2], balances[2], nonces[2])])
  {
    if |keys| != 3 || exists i :: 0 <= i < |keys| && |keys[i]| != 32 {
      return None;
    }
    if |balances| != 3 || |nonces| != 3 {
      return None;
    }
    if exists i :: 0 <= i < 3 && !(0 <= balances[i] < U64 && 0 <= nonces[i] < U32) {
      return None;
    }
    var r := Root(sha, [Account(keys[0], balances[0], nonces[0]), Account(keys[1], balances[1], nonces[1]),
                        Account(keys[2], balances[2], nonces[2])]);
    root := Some(r);
  }

  lemma AccountPeel(i: nat, a: Account, b: Account, r: bytes, s: bytes)
    requires a.WellFormed() && b.WellFormed() && AccountBytes(i, a) + r == AccountBytes(i, b) + s
    ensures a == b && r == s
  {
    hide LE;
    Peel(AccountBytes(i, a), r, AccountBytes(i, b), s);
    Peel(LE(i, 4) + a.key + LE(a.balance, 8), LE(a.nonce, 4), LE(i, 4) + b.key + LE(b.balance, 8), LE(b.nonce, 4));
    Peel(LE(i, 4) + a.key, LE(a.balance, 8), LE(i, 4) + b.key, LE(b.balance, 8));
    Peel(LE(i, 4), a.key, LE(i, 4), b.key);
    Pow256Values();
    LEInjective(a.balance, b.balance, 8);
    LEInjective(a.nonce, b.nonce, 4);
  }

  /** The hashed bytes determine every key, balance and nonce. */
  lemma RootPreimageInjective(s: seq<Account>, u: seq<Account>)
    requires State(s) && State(u) && RootPreimage(s) == RootPreimage(u)
    ensures s == u
  {
    hide AccountBytes;
    var a, b, c := AccountBytes(0, s[0]), AccountBytes(1, s[1]), AccountBytes(2, s[2]);
    var d, e, f := AccountBytes(0, u[0]), AccountBytes(1, u[1]), AccountBytes(2, u[2]);
    assert RootPreimage(s) == ACCOUNT_ROOT_DOMAIN + (a + (b + (c + [])));
    assert RootPreimage(u) == ACCOUNT_ROOT_DOMAIN + (d + (e + (f + [])));
    Peel(ACCOUNT_ROOT_DOMAIN, a + (b + (c + [])), ACCOUNT_ROOT_DOMAIN, d + (e + (f + [])));
    AccountPeel(0, s[0], u[0], b + (c + []), e + (f + []));
    AccountPeel(1, s[1], u[1], c + [], f + []);
    AccountPeel(2, s[2], u[2], [], []);
  }

  // ---------- validity and backing ----------

  /** `AccountState::validate` as a property: which error, if any, the first bad account gives. */
  function KeyError(c: Crypto, s: seq<Account>, i: nat): Option<Error>
    requires i <= |s|
    decreases |s| - i
  {
    if i == |s| then None
    else if !c.keyOk(s[i].key) then Some(InvalidAccountKey)
    else if exists j :: 0 <= j < i && s[j].key == s[i].key then Some(DuplicateAccountKey)
    else KeyError(c, s, i + 1)
  }

  /** Canonical, pairwise different keys. */
  predicate GoodKeys(c: Crypto, s: seq<Account>) {
    && (forall i :: 0 <= i < |s| ==> c.keyOk(s[i].key))
    && (forall i, j :: 0 <= j < i < |s| ==> s[j].key != s[i].key)
  }

  lemma {:induction false} KeyErrorMeans(c: Crypto, s: seq<Account>, i: nat)
    requires i <= |s|
    ensures KeyError(c, s, i).None? <==>
            && (forall k :: i <= k < |s| ==> c.keyOk(s[k].key))
            && (forall k, j :: i <= k < |s| && 0 <= j < k ==> s[j].key != s[k].key)
    decreases |s| - i
  {
    if i < |s| {
      KeyErrorMeans(c, s, i + 1);
    }
  }

  method Validate(c: Crypto, s: seq<Account>) returns (e: Option<Error>)
    ensures e == KeyError(c, s, 0)
  {
    var index := 0;
    while index < |s|
      invariant 0 <= index <= |s| && KeyError(c, s, 0) == KeyError(c, s, index)
    {
      if !c.keyOk(s[index].key) {
        return Some(InvalidAccountKey);
      }
      if exists j :: 0 <= j < index && s[j].key == s[index].key {
        return Some(DuplicateAccountKey);
      }
      index := index + 1;
    }
    e := None;
  }

  /** What the accounts add up to with the reserve, beyond machine width. */
  function Total(s: seq<Account>): nat
    requires |s| == 3
  {
    RESERVE + s[0].balance + s[1].balance + s[2].balance
  }

  function CheckedAdd(a: nat, b: nat): Result<nat> { if a + b < U64 then Ok(a + b) else Err(Arithmetic) }

  function CheckedSub(a: nat, b: nat): Result<nat> { if b <= a then Ok(a - b) else Err(Arithmetic) }

  method Backing(s: seq<Account>) returns (r: Result<nat>)
    requires State(s)
    ensures r == if Total(s) < U64 then Ok(Total(s)) else Err(Arithmetic)
  {
    var sum := RESERVE;
    var i := 0;
    while i < 3
      invariant 0 <= i <= 3 && sum < U64
      invariant sum == RESERVE + (if i > 0 then s[0].balance else 0) + (if i > 1 then s[1].balance else 0)
                       + (if i > 2 then s[2].balance else 0)
    {
      var added := CheckedAdd(sum, s[i].balance);
      if added.Err? {
        return Err(added.error);
      }
      sum := added.value;
      i := i + 1;
    }
    r := Ok(sum);
  }

  method RequireBacking(s: seq<Account>, supplied: nat) returns (e: Option<Error>)
    requires State(s)
    ensures e == if Total(s) >= U64 then Some(Arithmetic)
                 else if Total(s) != supplied then Some(InvalidBacking) else None
  {
    var b := Backing(s);
    if b.Err? {
      return Some(b.error);
    }
    e := if b.value != supplied then Some(InvalidBacking) else None;
  }

  // ---------- orders ----------

  /** The order of byte arrays. */
  predicate LexLess(a: bytes, b: bytes) {
    a != [] && b != [] && (a[0] < b[0] || (a[0] == b[0] && LexLess(a[1..], b[1..])))
  }

  /** On arrays of one length it is the order of the numbers they spell, most significant byte first. */
  lemma {:induction false} LexIsNumeric(a: bytes, b: bytes)
    requires |a| == |b|
    ensures LexLess(a, b) <==> ValBE(a) < ValBE(b)
  {
    if a != [] {
      LexIsNumeric(a[1..], b[1..]);
      ValBECons(a);
      ValBECons(b);
      ValBEBound(a[1..]);
      ValBEBound(b[1..]);
      LeadingDigit(a[0], ValBE(a[1..]), b[0], ValBE(b[1..]), Pow256(|a| - 1));
    }
  }

  lemma LeadingDigit(x: nat, r: nat, y: nat, q: nat, p: nat)
    requires r < p && q < p
    ensures x * p + r < y * p + q <==> x < y || (x == y && r < q)
  {
    if x < y {
      assert (x + 1) * p <= y * p by { Scale(x + 1, y, p); }
    } else if y < x {
      assert (y + 1) * p <= x * p by { Scale(y + 1, x, p); }
    }
  }

  lemma Scale(x: nat, y: nat, p: nat)
    requires x <= y
    ensures x * p <= y * p
  {
  }

  lemma {:induction false} ValBECons(b: bytes)
    requires b != []
    ensures ValBE(b) == b[0] * Pow256(|b| - 1) + ValBE(b[1..])
  {
    var n := |b| - 1;
    if n == 0 {
      assert b[1..] == [] && b[..0] == [];
      assert Pow256(0) == 1;
    } else {
      ValBECons(b[..n]);
      assert b[..n][1..] == b[1..][..n - 1];
      assert 256 * (b[0] * Pow256(n - 1)) == b[0] * Pow256(n);
    }
  }

  lemma {:induction false} ValBEBound(b: bytes)
    ensures ValBE(b) < Pow256(|b|)
  {
    if b != [] {
      ValBEBound(b[..|b| - 1]);
    }
  }
}
