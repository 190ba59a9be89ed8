// The helper methods of `Builder` (slices, size checks, fixed widths, OP_TX reads): which calls they make and
// what those calls mean. `XCalls(p, ...)` is the program `p` followed by the calls of `X`.
module Calls {
  import opened Bytes
  import opened Transactions
  import opened Script
  import opened Building

  // ---------- meaning of one opcode ----------

  function Bound(e: Env, v: Option<bytes>): Option<Env> {
    match v case None => None case Some(b) => Some(Bind(e, Anon, b))
  }

  function Check(e: Env, ok: bool): Option<Env> { if ok then Some(e) else None }

  lemma DoLocal(code: byte, i: nat, k: nat, e: Env, r: Env, a: seq<bytes>, w: World)
    requires Reads(code) == Some(|a|) && Flat(e) == Flat(r) + a
    ensures EvalCmd(Do(code, i, k), e, w) ==
            match Local(code, a, w)
            case None => None
            case Some(x) =>
              var st := Flat(r) + x;
              if k <= |st| then Some(BindAll(Unbind(e, i), st[|st| - k..])) else None
  {
    hide Local, Reads, BindAll, Unbind;
    IsLocal(code);
    var st := Flat(e);
    assert st[|st| - |a|..] == a && st[..|st| - |a|] == Flat(r);
  }

  lemma BindOne(e: Env, base: seq<bytes>, x: bytes)
    ensures var st := base + [x]; BindAll(e, st[|st| - 1..]) == Bind(e, Anon, x)
  {
    assert (base + [x])[|base|..] == [x];
    assert [x][..0] == [];
  }

  lemma BindNone(e: Env, st: seq<bytes>)
    ensures BindAll(e, st[|st| - 0..]) == e
  {
  }

  lemma UnbindTwo(r: Env, n: Name, a: bytes, m: Name, b: bytes)
    ensures Unbind(Bind(Bind(r, n, a), m, b), 2) == r
    ensures Flat(Bind(Bind(r, n, a), m, b)) == Flat(r) + [a, b]
  {
    assert Unbind(Bind(r, n, a), 1) == r;
  }

  /** One-item opcodes that replace it. */
  lemma OneToOne(code: byte, r: Env, n: Name, a: bytes, w: World)
    requires code in {OP_SHA256, OP_HASH256, OP_TX}
    ensures EvalCmd(Do(code, 1, 1), Bind(r, n, a), w) ==
            Bound(r, if code == OP_SHA256 then Some(Sha(w.sha, a))
                     else if code == OP_HASH256 then Some(Hash256(w.sha, a)) else TxField(w.ctx, a))
  {
    hide TxField, EvalCmd, Sha, BindAll;
    DoLocal(code, 1, 1, Bind(r, n, a), r, [a], w);
    var x := if code == OP_SHA256 then Some(Sha(w.sha, a))
             else if code == OP_HASH256 then Some(Hash256(w.sha, a)) else TxField(w.ctx, a);
    if x.Some? {
      BindOne(r, Flat(r), x.value);
    }
  }

  /** Two-item opcodes that leave one. */
  function Joined(code: byte, a: bytes, b: bytes, w: World): Option<bytes> {
    if code == OP_CAT then Some(a + b)
    else if code == OP_LEFT then Substr(w, a, 0, Val(b))
    else if code == OP_AND then if |a| == |b| then Some(And(a, b)) else None
    else if code == OP_ADD then Some(Minimal(Val(a) + Val(b)))
    else if code == OP_SUB then if Val(b) <= Val(a) then Some(Minimal(Val(a) - Val(b))) else None
    else if code == OP_NUMEQUAL then Some(Bool(Val(a) == Val(b)))
    else if code == OP_TWEAKADD then w.tweak(a, b)
    else if code == OP_NIP then Some(b)
    else None
  }

  lemma JoinedLocal(code: byte, a: bytes, b: bytes, w: World)
    requires code in {OP_CAT, OP_LEFT, OP_AND, OP_ADD, OP_SUB, OP_NUMEQUAL, OP_TWEAKADD, OP_NIP}
    ensures Reads(code) == Some(2) && Local(code, [a, b], w) == Wrap(Joined(code, a, b, w))
  {
  }

  lemma TwoToOne(code: byte, r: Env, n: Name, a: bytes, m: Name, b: bytes, w: World)
    requires code in {OP_CAT, OP_LEFT, OP_AND, OP_ADD, OP_SUB, OP_NUMEQUAL, OP_TWEAKADD, OP_NIP}
    ensures EvalCmd(Do(code, 2, 1), Bind(Bind(r, n, a), m, b), w) == Bound(r, Joined(code, a, b, w))
  {
    hide EvalCmd, Reads, Local, Joined;
    JoinedLocal(code, a, b, w);
    UnbindTwo(r, n, a, m, b);
    DoLocal(code, 2, 1, Bind(Bind(r, n, a), m, b), r, [a, b], w);
    if Joined(code, a, b, w).Some? {
      BindOne(r, Flat(r), Joined(code, a, b, w).value);
    }
  }

  /** Two-item comparisons that must hold. */
  lemma TwoToNone(code: byte, r: Env, n: Name, a: bytes, m: Name, b: bytes, w: World)
    requires code in {OP_EQUALVERIFY, OP_NUMEQUALVERIFY}
    ensures EvalCmd(Do(code, 2, 0), Bind(Bind(r, n, a), m, b), w) ==
            Check(r, if code == OP_EQUALVERIFY then a == b else Val(a) == Val(b))
  {
    hide EvalCmd;
    UnbindTwo(r, n, a, m, b);
    DoLocal(code, 2, 0, Bind(Bind(r, n, a), m, b), r, [a, b], w);
    BindNone(r, Flat(r) + []);
  }

  lemma SubstrMeaning(r: Env, n: Name, a: bytes, m: Name, b: bytes, k: Name, c: bytes, w: World)
    ensures EvalCmd(Do(OP_SUBSTR, 3, 1), Bind(Bind(Bind(r, n, a), m, b), k, c), w) ==
            Bound(r, Substr(w, a, Val(b), Val(c)))
  {
    hide EvalCmd, Substr;
    var e := Bind(Bind(Bind(r, n, a), m, b), k, c);
    UnbindTwo(Bind(r, n, a), m, b, k, c);
    assert Unbind(e, 3) == Unbind(Bind(Bind(r, n, a), m, b), 2);
    UnbindTwo(r, n, a, m, b);
    assert Flat(e) == Flat(r) + [a, b, c];
    DoLocal(OP_SUBSTR, 3, 1, e, r, [a, b, c], w);
    if Substr(w, a, Val(b), Val(c)).Some? {
      BindOne(r, Flat(r), Substr(w, a, Val(b), Val(c)).value);
    }
  }

  lemma SwapMeaning(r: Env, n: Name, a: bytes, m: Name, b: bytes, w: World)
    ensures EvalCmd(Do(OP_SWAP, 2, 2), Bind(Bind(r, n, a), m, b), w) == Some(Bind(Bind(r, Anon, b), Anon, a))
  {
    hide EvalCmd;
    UnbindTwo(r, n, a, m, b);
    DoLocal(OP_SWAP, 2, 2, Bind(Bind(r, n, a), m, b), r, [a, b], w);
    var st := Flat(r) + [b, a];
    assert st[|st| - 2..] == [b, a];
    assert [b, a][..1] == [b] && [b][..0] == [];
    assert BindAll(r, [b]) == Bind(r, Anon, b);
  }

  lemma DropMeaning(r: Env, n: Name, a: bytes, w: World)
    ensures EvalCmd(Do(OP_DROP, 1, 0), Bind(r, n, a), w) == Some(r)
  {
    hide EvalCmd;
    DoLocal(OP_DROP, 1, 0, Bind(r, n, a), r, [a], w);
    BindNone(r, Flat(r) + []);
  }

  lemma VerifyMeaning(r: Env, n: Name, a: bytes, w: World)
    ensures EvalCmd(Do(OP_VERIFY, 1, 0), Bind(r, n, a), w) == Check(r, IsTrue(a))
  {
    hide EvalCmd;
    DoLocal(OP_VERIFY, 1, 0, Bind(r, n, a), r, [a], w);
    BindNone(r, Flat(r) + []);
  }

  lemma SizeMeaning(r: Env, n: Name, a: bytes, w: World)
    ensures EvalCmd(Do(OP_SIZE, 0, 1), Bind(r, n, a), w) == Some(Bind(Bind(r, n, a), Anon, Minimal(|a|)))
  {
    hide EvalCmd;
    DoLocal(OP_SIZE, 0, 1, Bind(r, n, a), r, [a], w);
    assert Flat(r) + [a, Minimal(|a|)] == (Flat(r) + [a]) + [Minimal(|a|)];
    BindOne(Bind(r, n, a), Flat(r) + [a], Minimal(|a|));
  }

  lemma OverMeaning(r: Env, n: Name, a: bytes, m: Name, b: bytes, w: World)
    ensures EvalCmd(Do(OP_OVER, 0, 1), Bind(Bind(r, n, a), m, b), w) ==
            Some(Bind(Bind(Bind(r, n, a), m, b), Anon, a))
  {
    hide EvalCmd;
    var e := Bind(Bind(r, n, a), m, b);
    UnbindTwo(r, n, a, m, b);
    DoLocal(OP_OVER, 0, 1, e, r, [a, b], w);
    assert Flat(r) + [a, b, a] == Flat(e) + [a];
    BindOne(e, Flat(e), a);
  }

  lemma WithinMeaning(r: Env, n: Name, a: bytes, m: Name, b: bytes, k: Name, c: bytes, w: World)
    ensures EvalCmd(Do(OP_WITHIN, 3, 1), Bind(Bind(Bind(r, n, a), m, b), k, c), w) ==
            Some(Bind(r, Anon, Bool(Val(b) <= Val(a) < Val(c))))
  {
    hide EvalCmd;
    var e := Bind(Bind(Bind(r, n, a), m, b), k, c);
    UnbindTwo(Bind(r, n, a), m, b, k, c);
    assert Unbind(e, 3) == Unbind(Bind(Bind(r, n, a), m, b), 2);
    UnbindTwo(r, n, a, m, b);
    assert Flat(e) == Flat(r) + [a, b, c];
    DoLocal(OP_WITHIN, 3, 1, e, r, [a, b, c], w);
    BindOne(r, Flat(r), Bool(Val(b) <= Val(a) < Val(c)));
  }

  lemma DepthMeaning(e: Env, w: World)
    ensures EvalCmd(Do(OP_DEPTH, 0, 1), e, w) == Some(Bind(e, Anon, Minimal(|Flat(e)|)))
  {
    BindOne(e, Flat(e), Minimal(|Flat(e)|));
  }

  lemma PickMeaning(e: Env, n: Name, d: bytes, w: World)
    ensures EvalCmd(Do(OP_PICK, 1, 1), Bind(e, n, d), w) ==
            if Val(d) < |Flat(e)| then Some(Bind(e, Anon, Flat(e)[|Flat(e)| - 1 - Val(d)])) else None
  {
    var st := Flat(e) + [d];
    assert st[..|st| - 1] == Flat(e);
    assert Unbind(Bind(e, n, d), 1) == e;
    if Val(d) < |Flat(e)| {
      var x := st[|st| - 2 - Val(d)];
      assert x == Flat(e)[|Flat(e)| - 1 - Val(d)];
      BindOne(e, Flat(e), x);
    }
  }

  // ---------- calls in sequence ----------
  //
  // The lemmas below follow a program through its calls. `Reaches(p, e0, w, e, ok)` says that the calls of `p`
  // from `e0` either all succeed and leave `e`, which is when `ok`, or fail. Each `XStep` extends `p` by the
  // calls of X.

  predicate Reaches(p: Prog, e0: Env, w: World, e: Env, ok: bool) { Eval(p, e0, w) == Check(e, ok) }

  /** Only the flag and, when it holds, the bindings matter. */
  lemma Restate(p: Prog, e0: Env, w: World, e: Env, ok: bool, f: Env, ok': bool)
    requires Reaches(p, e0, w, e, ok) && ok == ok' && (ok ==> e == f)
    ensures Reaches(p, e0, w, f, ok')
  {
  }

  function Got(o: Option<bytes>): bytes { match o case None => [] case Some(b) => b }

  lemma Next(q: Prog, c: Cmd, e0: Env, w: World, e: Env, ok: bool)
    requires Reaches(q, e0, w, e, ok)
    ensures Eval(Then(q, c), e0, w) == if ok then EvalCmd(c, e, w) else None
  {
  }

  lemma PushStep(q: Prog, b: bytes, e0: Env, w: World, e: Env, ok: bool)
    requires Reaches(q, e0, w, e, ok)
    ensures Reaches(Then(q, Push(b)), e0, w, Bind(e, Anon, b), ok)
  {
  }

  lemma NumberStep(q: Prog, n: nat, e0: Env, w: World, e: Env, ok: bool)
    requires Reaches(q, e0, w, e, ok)
    ensures Reaches(Then(q, Number(n)), e0, w, Bind(e, Anon, SignedNum(n)), ok) && Val(SignedNum(n)) == n
  {
    SignedNumVal(n);
  }

  lemma GetStep(q: Prog, n: Name, e0: Env, w: World, e: Env, ok: bool)
    requires Reaches(q, e0, w, e, ok)
    ensures Reaches(Then(q, Get(n)), e0, w, Bind(e, Anon, Lookup(e, n)), ok)
  {
  }

  lemma NameStep(q: Prog, n: Name, e0: Env, w: World, e: Env, ok: bool)
    requires Reaches(q, e0, w, e, ok) && e.Bind?
    ensures Reaches(Then(q, Rename(n)), e0, w, Bind(e.rest, n, e.val), ok)
  {
  }

  function Then2(p: Prog, code: byte): Prog { Then(p, Do(code, 2, 1)) }

  lemma JoinStep(q: Prog, code: byte, e0: Env, w: World, e: Env, ok: bool)
    requires code in {OP_CAT, OP_LEFT, OP_AND, OP_ADD, OP_SUB, OP_NUMEQUAL, OP_TWEAKADD, OP_NIP}
    requires Reaches(q, e0, w, e, ok) && e.Bind? && e.rest.Bind?
    ensures var j := Joined(code, e.rest.val, e.val, w);
            Reaches(Then2(q, code), e0, w, Bind(e.rest.rest, Anon, Got(j)), ok && j.Some?)
  {
    hide EvalCmd, Joined, Eval;
    Next(q, Do(code, 2, 1), e0, w, e, ok);
    TwoToOne(code, e.rest.rest, e.rest.name, e.rest.val, e.name, e.val, w);
  }

  lemma CatStep(q: Prog, e0: Env, w: World, e: Env, ok: bool)
    requires Reaches(q, e0, w, e, ok) && e.Bind? && e.rest.Bind?
    ensures Reaches(Then2(q, OP_CAT), e0, w, Bind(e.rest.rest, Anon, e.rest.val + e.val), ok)
  {
    hide Eval;
    JoinStep(q, OP_CAT, e0, w, e, ok);
  }

  function EqualVerify(p: Prog): Prog { Then(p, Do(OP_EQUALVERIFY, 2, 0)) }

  function NumEqualVerify(p: Prog): Prog { Then(p, Do(OP_NUMEQUALVERIFY, 2, 0)) }

  lemma EqualStep(q: Prog, e0: Env, w: World, e: Env, ok: bool)
    requires Reaches(q, e0, w, e, ok) && e.Bind? && e.rest.Bind?
    ensures Reaches(EqualVerify(q), e0, w, e.rest.rest, ok && e.rest.val == e.val)
  {
    hide EvalCmd, Eval;
    Next(q, Do(OP_EQUALVERIFY, 2, 0), e0, w, e, ok);
    TwoToNone(OP_EQUALVERIFY, e.rest.rest, e.rest.name, e.rest.val, e.name, e.val, w);
  }

  lemma NumEqualStep(q: Prog, e0: Env, w: World, e: Env, ok: bool)
    requires Reaches(q, e0, w, e, ok) && e.Bind? && e.rest.Bind?
    ensures Reaches(NumEqualVerify(q), e0, w, e.rest.rest, ok && Val(e.rest.val) == Val(e.val))
  {
    hide EvalCmd, Eval;
    Next(q, Do(OP_NUMEQUALVERIFY, 2, 0), e0, w, e, ok);
    TwoToNone(OP_NUMEQUALVERIFY, e.rest.rest, e.rest.name, e.rest.val, e.name, e.val, w);
  }

  function SwapCalls(p: Prog): Prog { Then(p, Do(OP_SWAP, 2, 2)) }

  lemma SwapStep(q: Prog, e0: Env, w: World, e: Env, ok: bool)
    requires Reaches(q, e0, w, e, ok) && e.Bind? && e.rest.Bind?
    ensures Reaches(SwapCalls(q), e0, w, Bind(Bind(e.rest.rest, Anon, e.val), Anon, e.rest.val), ok)
  {
    hide EvalCmd, Eval;
    Next(q, Do(OP_SWAP, 2, 2), e0, w, e, ok);
    SwapMeaning(e.rest.rest, e.rest.name, e.rest.val, e.name, e.val, w);
  }

  function DropTop(p: Prog): Prog { Then(p, Do(OP_DROP, 1, 0)) }

  lemma DropStep(q: Prog, e0: Env, w: World, e: Env, ok: bool)
    requires Reaches(q, e0, w, e, ok) && e.Bind?
    ensures Reaches(DropTop(q), e0, w, e.rest, ok)
  {
    hide EvalCmd, Eval;
    Next(q, Do(OP_DROP, 1, 0), e0, w, e, ok);
    DropMeaning(e.rest, e.name, e.val, w);
  }

  function SizeCalls(p: Prog): Prog { Then(p, Do(OP_SIZE, 0, 1)) }

  lemma SizeStep(q: Prog, e0: Env, w: World, e: Env, ok: bool)
    requires Reaches(q, e0, w, e, ok) && e.Bind?
    ensures Reaches(SizeCalls(q), e0, w, Bind(e, Anon, Minimal(|e.val|)), ok) && Val(Minimal(|e.val|)) == |e.val|
  {
    hide EvalCmd, Eval;
    Next(q, Do(OP_SIZE, 0, 1), e0, w, e, ok);
    SizeMeaning(e.rest, e.name, e.val, w);
    MinimalVal(|e.val|);
  }

  function HashCalls(p: Prog, code: byte): Prog { Then(p, Do(code, 1, 1)) }

  lemma HashStep(q: Prog, code: byte, e0: Env, w: World, e: Env, ok: bool)
    requires code in {OP_SHA256, OP_HASH256} && Reaches(q, e0, w, e, ok) && e.Bind?
    ensures Reaches(HashCalls(q, code), e0, w,
                    Bind(e.rest, Anon, if code == OP_SHA256 then Sha(w.sha, e.val) else Hash256(w.sha, e.val)), ok)
  {
    hide EvalCmd, Eval;
    Next(q, Do(code, 1, 1), e0, w, e, ok);
    OneToOne(code, e.rest, e.name, e.val, w);
  }

  function TxCalls(p: Prog, selector: bytes): Prog { Then(Then(p, Push(selector)), Do(OP_TX, 1, 1)) }

  lemma TxStep(p: Prog, selector: bytes, e0: Env, w: World, e: Env, ok: bool)
    requires Reaches(p, e0, w, e, ok)
    ensures var f := TxField(w.ctx, selector);
            Reaches(TxCalls(p, selector), e0, w, Bind(e, Anon, Got(f)), ok && f.Some?)
  {
    hide EvalCmd, Eval, TxField;
    PushStep(p, selector, e0, w, e, ok);
    Next(Then(p, Push(selector)), Do(OP_TX, 1, 1), e0, w, Bind(e, Anon, selector), ok);
    OneToOne(OP_TX, e, Anon, selector, w);
  }

  // ---------- slices, sizes and widths ----------

  function SliceCalls(p: Prog, n: Name, start: nat, len: nat): Prog {
    Then(Then(Then(Then(p, Get(n)), Number(start)), Number(len)), Do(OP_SUBSTR, 3, 1))
  }

  lemma SliceStep(p: Prog, n: Name, start: nat, len: nat, e0: Env, w: World, e: Env, ok: bool)
    requires Reaches(p, e0, w, e, ok)
    ensures var s := Substr(w, Lookup(e, n), start, len);
            Reaches(SliceCalls(p, n, start, len), e0, w, Bind(e, Anon, Got(s)), ok && s.Some?)
  {
    hide EvalCmd, Eval, Substr, SignedNum;
    var p1 := Then(p, Get(n));
    var e1 := Bind(e, Anon, Lookup(e, n));
    var p2 := Then(p1, Number(start));
    var e2 := Bind(e1, Anon, SignedNum(start));
    var p3 := Then(p2, Number(len));
    var e3 := Bind(e2, Anon, SignedNum(len));
    GetStep(p, n, e0, w, e, ok);
    NumberStep(p1, start, e0, w, e1, ok);
    NumberStep(p2, len, e0, w, e2, ok);
    Next(p3, Do(OP_SUBSTR, 3, 1), e0, w, e3, ok);
    SubstrMeaning(e, Anon, Lookup(e, n), Anon, SignedNum(start), Anon, SignedNum(len), w);
  }

  /** A slice that is known to be in range. */
  lemma CutStep(p: Prog, n: Name, start: nat, len: nat, e0: Env, w: World, e: Env, ok: bool)
    requires Reaches(p, e0, w, e, ok) && (ok ==> start + len <= |Lookup(e, n)|)
    ensures Reaches(SliceCalls(p, n, start, len), e0, w,
                    Bind(e, Anon, if ok then Lookup(e, n)[start..start + len] else []), ok)
  {
    hide Eval;
    SliceStep(p, n, start, len, e0, w, e, ok);
  }

  function EqualSliceCalls(p: Prog, n: Name, start: nat, x: bytes): Prog {
    EqualVerify(Then(SliceCalls(p, n, start, |x|), Push(x)))
  }

  predicate SliceIs(w: World, b: bytes, start: nat, x: bytes) { Substr(w, b, start, |x|) == Some(x) }

  lemma EqualSliceStep(p: Prog, n: Name, start: nat, x: bytes, e0: Env, w: World, e: Env, ok: bool)
    requires Reaches(p, e0, w, e, ok)
    ensures Reaches(EqualSliceCalls(p, n, start, x), e0, w, e, ok && SliceIs(w, Lookup(e, n), start, x))
  {
    hide Substr, SliceCalls, Eval;
    var p1 := SliceCalls(p, n, start, |x|);
    var s := Substr(w, Lookup(e, n), start, |x|);
    SliceStep(p, n, start, |x|, e0, w, e, ok);
    PushStep(p1, x, e0, w, Bind(e, Anon, Got(s)), ok && s.Some?);
    EqualStep(Then(p1, Push(x)), e0, w, Bind(Bind(e, Anon, Got(s)), Anon, x), ok && s.Some?);
  }

  function RequireSizeCalls(p: Prog, n: Name, len: nat): Prog {
    DropTop(NumEqualVerify(Then(SizeCalls(Then(p, Get(n))), Number(len))))
  }

  lemma RequireSizeStep(p: Prog, n: Name, len: nat, e0: Env, w: World, e: Env, ok: bool)
    requires Reaches(p, e0, w, e, ok)
    ensures Reaches(RequireSizeCalls(p, n, len), e0, w, e, ok && |Lookup(e, n)| == len)
  {
    hide Eval, SignedNum, Minimal;
    var v := Lookup(e, n);
    var p1, e1 := Then(p, Get(n)), Bind(e, Anon, v);
    var p2, e2 := SizeCalls(p1), Bind(e1, Anon, Minimal(|v|));
    var p3, e3 := Then(p2, Number(len)), Bind(e2, Anon, SignedNum(len));
    GetStep(p, n, e0, w, e, ok);
    SizeStep(p1, e0, w, e1, ok);
    NumberStep(p2, len, e0, w, e2, ok);
    NumEqualStep(p3, e0, w, e3, ok);
    DropStep(NumEqualVerify(p3), e0, w, e1, ok && |v| == len);
  }

  /** `_is_size`: leaves the Boolean of a size test. */
  function IsSizeCalls(p: Prog, n: Name, len: nat): Prog {
    DropTop(SwapCalls(Then2(Then(SizeCalls(Then(p, Get(n))), Number(len)), OP_NUMEQUAL)))
  }

  lemma IsSizeStep(p: Prog, n: Name, len: nat, e0: Env, w: World, e: Env, ok: bool)
    requires Reaches(p, e0, w, e, ok)
    ensures Reaches(IsSizeCalls(p, n, len), e0, w, Bind(e, Anon, Bool(|Lookup(e, n)| == len)), ok)
  {
    hide Eval, SignedNum, Minimal;
    var v := Lookup(e, n);
    var p1, e1 := Then(p, Get(n)), Bind(e, Anon, v);
    var p2, e2 := SizeCalls(p1), Bind(e1, Anon, Minimal(|v|));
    var p3, e3 := Then(p2, Number(len)), Bind(e2, Anon, SignedNum(len));
    var p4, e4 := Then2(p3, OP_NUMEQUAL), Bind(e1, Anon, Bool(|v| == len));
    GetStep(p, n, e0, w, e, ok);
    SizeStep(p1, e0, w, e1, ok);
    NumberStep(p2, len, e0, w, e2, ok);
    JoinStep(p3, OP_NUMEQUAL, e0, w, e3, ok);
    SwapStep(p4, e0, w, e4, ok);
    DropStep(SwapCalls(p4), e0, w, Bind(Bind(e, Anon, e4.val), Anon, v), ok);
  }

  function FixedWidthCalls(p: Prog, width: nat): Prog {
    Then2(Then(Then2(Then(p, Push(Zeros(width))), OP_CAT), Number(width)), OP_LEFT)
  }

  /** `fixed_width` turns any encoding of a number into its `width`-byte encoding. */
  lemma FixedWidthStep(p: Prog, width: nat, e0: Env, w: World, e: Env, ok: bool)
    requires Reaches(p, e0, w, e, ok) && e.Bind?
    ensures Reaches(FixedWidthCalls(p, width), e0, w, Bind(e.rest, Anon, LE(Val(e.val), width)), ok)
  {
    hide SignedNum, Eval;
    var p1, e1 := Then(p, Push(Zeros(width))), Bind(e, Anon, Zeros(width));
    var p2, e2 := Then2(p1, OP_CAT), Bind(e.rest, Anon, e.val + Zeros(width));
    var p3, e3 := Then(p2, Number(width)), Bind(e2, Anon, SignedNum(width));
    PushStep(p, Zeros(width), e0, w, e, ok);
    CatStep(p1, e0, w, e1, ok);
    NumberStep(p2, width, e0, w, e2, ok);
    JoinStep(p3, OP_LEFT, e0, w, e3, ok);
    PadAndCut(e.val, width);
  }

  /** A transaction field that must equal a constant. */
  function TxEqualCalls(p: Prog, selector: bytes, x: bytes): Prog { EqualVerify(Then(TxCalls(p, selector), Push(x))) }

  lemma TxEqualStep(p: Prog, selector: bytes, x: bytes, e0: Env, w: World, e: Env, ok: bool)
    requires Reaches(p, e0, w, e, ok)
    ensures Reaches(TxEqualCalls(p, selector, x), e0, w, e, ok && TxField(w.ctx, selector) == Some(x))
  {
    hide TxField, TxCalls, Eval;
    var f := TxField(w.ctx, selector);
    TxStep(p, selector, e0, w, e, ok);
    PushStep(TxCalls(p, selector), x, e0, w, Bind(e, Anon, Got(f)), ok && f.Some?);
    EqualStep(Then(TxCalls(p, selector), Push(x)), e0, w, Bind(Bind(e, Anon, Got(f)), Anon, x), ok && f.Some?);
  }

  // ---------- concatenation on top of the stack ----------

  /** A constant put in front of the top item. */
  function PrefixCalls(p: Prog, x: bytes): Prog { Then2(SwapCalls(Then(p, Push(x))), OP_CAT) }

  lemma PrefixStep(p: Prog, x: bytes, e0: Env, w: World, e: Env, ok: bool)
    requires Reaches(p, e0, w, e, ok) && e.Bind?
    ensures Reaches(PrefixCalls(p, x), e0, w, Bind(e.rest, Anon, x + e.val), ok)
  {
    hide Eval;
    var p1, e1 := Then(p, Push(x)), Bind(e, Anon, x);
    PushStep(p, x, e0, w, e, ok);
    SwapStep(p1, e0, w, e1, ok);
    CatStep(SwapCalls(p1), e0, w, Bind(Bind(e.rest, Anon, x), Anon, e.val), ok);
  }

  /** A constant put behind the top item. */
  function SuffixCalls(p: Prog, x: bytes): Prog { Then2(Then(p, Push(x)), OP_CAT) }

  lemma SuffixStep(p: Prog, x: bytes, e0: Env, w: World, e: Env, ok: bool)
    requires Reaches(p, e0, w, e, ok) && e.Bind?
    ensures Reaches(SuffixCalls(p, x), e0, w, Bind(e.rest, Anon, e.val + x), ok)
  {
    hide Eval;
    PushStep(p, x, e0, w, e, ok);
    CatStep(Then(p, Push(x)), e0, w, Bind(e, Anon, x), ok);
  }

  /** A named value put behind the top item. */
  function AppendCalls(p: Prog, n: Name): Prog { Then2(Then(p, Get(n)), OP_CAT) }

  lemma AppendStep(p: Prog, n: Name, e0: Env, w: World, e: Env, ok: bool)
    requires Reaches(p, e0, w, e, ok) && e.Bind? && e.name != n
    ensures Reaches(AppendCalls(p, n), e0, w, Bind(e.rest, Anon, e.val + Lookup(e.rest, n)), ok)
  {
    hide Eval;
    GetStep(p, n, e0, w, e, ok);
    CatStep(Then(p, Get(n)), e0, w, Bind(e, Anon, Lookup(e, n)), ok);
  }

  // ---------- single opcodes ----------

  lemma VerifyStep(q: Prog, e0: Env, w: World, e: Env, ok: bool, c: bool)
    requires Reaches(q, e0, w, e, ok) && e.Bind? && e.val == Bool(c)
    ensures Reaches(Then(q, Do(OP_VERIFY, 1, 0)), e0, w, e.rest, ok && c)
  {
    hide EvalCmd, Eval;
    Next(q, Do(OP_VERIFY, 1, 0), e0, w, e, ok);
    VerifyMeaning(e.rest, e.name, e.val, w);
    BoolTrue(c);
  }

  lemma WithinStep(q: Prog, e0: Env, w: World, r: Env, n: Name, a: bytes, b: bytes, c: bytes, ok: bool)
    requires Reaches(q, e0, w, Bind(Bind(Bind(r, n, a), Anon, b), Anon, c), ok)
    ensures Reaches(Then(q, Do(OP_WITHIN, 3, 1)), e0, w, Bind(r, Anon, Bool(Val(b) <= Val(a) < Val(c))), ok)
  {
    hide EvalCmd, Eval;
    Next(q, Do(OP_WITHIN, 3, 1), e0, w, Bind(Bind(Bind(r, n, a), Anon, b), Anon, c), ok);
    WithinMeaning(r, n, a, Anon, b, Anon, c, w);
  }

  lemma OverStep(q: Prog, e0: Env, w: World, e: Env, ok: bool)
    requires Reaches(q, e0, w, e, ok) && e.Bind? && e.rest.Bind?
    ensures Reaches(Then(q, Do(OP_OVER, 0, 1)), e0, w, Bind(e, Anon, e.rest.val), ok)
  {
    hide EvalCmd, Eval;
    Next(q, Do(OP_OVER, 0, 1), e0, w, e, ok);
    OverMeaning(e.rest.rest, e.rest.name, e.rest.val, e.name, e.val, w);
  }

  lemma DepthStep(q: Prog, e0: Env, w: World, e: Env, ok: bool)
    requires Reaches(q, e0, w, e, ok)
    ensures Reaches(Then(q, Do(OP_DEPTH, 0, 1)), e0, w, Bind(e, Anon, Minimal(|Flat(e)|)), ok)
  {
    hide EvalCmd, Eval;
    Next(q, Do(OP_DEPTH, 0, 1), e0, w, e, ok);
    DepthMeaning(e, w);
  }

  lemma PickStep(q: Prog, e0: Env, w: World, e: Env, ok: bool)
    requires Reaches(q, e0, w, e, ok) && e.Bind?
    ensures var st, d := Flat(e.rest), Val(e.val);
            Reaches(Then(q, Do(OP_PICK, 1, 1)), e0, w,
                    Bind(e.rest, Anon, if d < |st| then st[|st| - 1 - d] else []), ok && d < |st|)
  {
    hide EvalCmd, Eval;
    Next(q, Do(OP_PICK, 1, 1), e0, w, e, ok);
    PickMeaning(e.rest, e.name, e.val, w);
  }

  // ---------- branches and finishing ----------

  function DropCalls(p: Prog, k: nat): Prog {
    if k == 0 then p else DropTop(DropCalls(p, k - 1))
  }

  lemma {:induction false} DropAllStep(p: Prog, k: nat, e0: Env, w: World, e: Env, ok: bool)
    requires Reaches(p, e0, w, e, ok) && k <= |NamesOf(e)|
    ensures Reaches(DropCalls(p, k), e0, w, Unbind(e, k), ok)
  {
    hide Eval;
    if k != 0 {
      DropAllStep(p, k - 1, e0, w, e, ok);
      UnbindOneMore(e, k - 1);
      DropStep(DropCalls(p, k - 1), e0, w, Unbind(e, k - 1), ok);
    }
  }

  lemma {:induction false} UnbindOneMore(e: Env, k: nat)
    requires k < |NamesOf(e)|
    ensures Unbind(e, k).Bind? && Unbind(e, k + 1) == Unbind(e, k).rest
  {
    if k != 0 {
      UnbindOneMore(e.rest, k - 1);
    }
  }

  lemma BoolTrue(b: bool)
    ensures IsTrue(Bool(b)) <==> b
  {
    assert Zeros(1)[0] == 0;
    assert Bool(false) == Zeros(0);
  }

  /** Both sides of a branch on a Boolean lead to the same bindings, each under its own condition. */
  lemma BranchStep(q: Prog, yes: Prog, no: Prog, e0: Env, w: World, e: Env, ok: bool, c: bool, r: Env, y: bool, n: bool)
    requires Reaches(q, e0, w, Bind(e, Anon, Bool(c)), ok)
    requires ok && c ==> Reaches(yes, e, w, r, y)
    requires ok && !c ==> Reaches(no, e, w, r, n)
    ensures Reaches(Then(q, Branch(yes, no)), e0, w, r, ok && if c then y else n)
  {
    BoolTrue(c);
    Next(q, Branch(yes, no), e0, w, Bind(e, Anon, Bool(c)), ok);
  }

  lemma NilStep(e: Env, w: World)
    ensures Reaches(Nil, e, w, e, true)
  {
  }
}
