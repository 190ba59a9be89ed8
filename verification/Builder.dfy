// `Builder` as a small compiler. A program is the sequence of builder calls; `Emit` is the flat code they
// append and `Eval` their meaning over named values. `Correct` says the two agree for every program.
module Building {
  import opened Bytes
  import opened Script

  /** The names the bridge programs track; `Anon` is the empty name. */
  datatype Name = Anon | Parent | Ancestor | OldState | NewState | BridgeId | RecipientA | RefundA | RecipientB
                | RefundB | PublicValues | ProgramSpk | AccountKey | RecipientId | PrevoutsOf | AmountsOf | SpksOf
                | NewCaboose | OldCaboose | ExpectedOutputs | DepositLeafBytes | OldRoot

  datatype Cmd = Push(data: bytes) | Number(n: nat) | Do(code: byte, inputs: nat, outputs: nat)
               | Rename(to: Name) | Get(name: Name) | Branch(yes: Prog, no: Prog)

  /** Builder calls, the latest outermost. */
  datatype Prog = Nil | Then(init: Prog, last: Cmd)

  /** The stack effect a builder call may declare for an opcode. */
  function Arity(code: byte): Option<(nat, nat)> {
    if code in {OP_DROP, OP_VERIFY} then Some((1, 0))
    else if code in {OP_PICK, OP_SHA256, OP_HASH256, OP_TX} then Some((1, 1))
    else if code == OP_SWAP then Some((2, 2))
    else if code in {OP_EQUALVERIFY, OP_NUMEQUALVERIFY} then Some((2, 0))
    else if code in {OP_CAT, OP_LEFT, OP_AND, OP_ADD, OP_SUB, OP_NUMEQUAL, OP_TWEAKADD, OP_NIP} then Some((2, 1))
    else if code in {OP_SUBSTR, OP_WITHIN} then Some((3, 1))
    else if code in {OP_SIZE, OP_OVER, OP_DEPTH} then Some((0, 1))
    else None
  }

  // ---------- names and emitted code ----------

  function Anons(n: nat): (r: seq<Name>)
    ensures |r| == n
  {
    seq(n, _ => Anon)
  }

  function Pop<T>(s: seq<T>, n: nat): (r: seq<T>)
    ensures n <= |s| ==> r == s[..|s| - n]
  {
    if n <= |s| then s[..|s| - n] else []
  }

  function NamesCmd(c: Cmd, names: seq<Name>): seq<Name> {
    match c
    case Push(_) => names + [Anon]
    case Number(_) => names + [Anon]
    case Do(_, i, k) => Pop(names, i) + Anons(k)
    case Rename(n) => Pop(names, 1) + [n]
    case Get(_) => names + [Anon]
    case Branch(yes, _) => NamesAfter(yes, Pop(names, 1))
  }

  function NamesAfter(p: Prog, names: seq<Name>): seq<Name> {
    match p case Nil => names case Then(q, c) => NamesCmd(c, NamesAfter(q, names))
  }

  /** The last position of a name. */
  function Position(names: seq<Name>, n: Name): (k: nat)
    requires n in names
    ensures k < |names| && names[k] == n && forall j :: k < j < |names| ==> names[j] != n
  {
    var last := |names| - 1;
    if names[last] == n then last else
      assert names == names[..last] + [names[last]];
      Position(names[..last], n)
  }

  /** The assertions `Builder` makes of its caller. */
  predicate LegalCmd(c: Cmd, names: seq<Name>) {
    match c
    case Push(_) => true
    case Number(_) => true
    case Do(code, i, k) => Arity(code) == Some((i, k)) && i <= |names|
    case Rename(_) => names != []
    case Get(n) => n in names
    case Branch(yes, no) =>
      var below := Pop(names, 1);
      names != [] && Legal(yes, below) && Legal(no, below) && NamesAfter(yes, below) == NamesAfter(no, below)
  }

  predicate Legal(p: Prog, names: seq<Name>) {
    match p case Nil => true case Then(q, c) => Legal(q, names) && LegalCmd(c, NamesAfter(q, names))
  }

  function NumberInstr(n: nat): Instr {
    if n == 0 then Data([]) else if n <= 16 then Small(n) else Data(SignedNum(n))
  }

  function EmitCmd(c: Cmd, names: seq<Name>): seq<Instr> {
    match c
    case Push(b) => [Data(b)]
    case Number(n) => [NumberInstr(n)]
    case Do(code, _, _) => [Op(code)]
    case Rename(_) => []
    case Get(n) => if n in names then [NumberInstr(|names| - 1 - Position(names, n)), Op(OP_PICK)] else []
    case Branch(yes, no) =>
      var below := Pop(names, 1);
      [Op(OP_IF)] + Emit(yes, below) + [Op(OP_ELSE)] + Emit(no, below) + [Op(OP_ENDIF)]
  }

  function Emit(p: Prog, names: seq<Name>): seq<Instr> {
    match p case Nil => [] case Then(q, c) => Emit(q, names) + EmitCmd(c, NamesAfter(q, names))
  }

  // ---------- structured meaning ----------

  /** Named values over a base stack the program does not track; the latest binding is the stack top. */
  datatype Env = Base(items: seq<bytes>) | Bind(rest: Env, name: Name, val: bytes)

  function Flat(e: Env): seq<bytes> {
    match e case Base(items) => items case Bind(r, _, v) => Flat(r) + [v]
  }

  function NamesOf(e: Env): seq<Name> {
    match e case Base(_) => [] case Bind(r, n, _) => NamesOf(r) + [n]
  }

  function BaseOf(e: Env): seq<bytes> {
    match e case Base(items) => items case Bind(r, _, _) => BaseOf(r)
  }

  /** The value most recently bound to a name. */
  function Lookup(e: Env, n: Name): bytes {
    match e case Base(_) => [] case Bind(r, m, v) => if m == n then v else Lookup(r, n)
  }

  function Unbind(e: Env, n: nat): Env {
    if n == 0 then e else match e case Base(_) => e case Bind(r, _, _) => Unbind(r, n - 1)
  }

  function BindAll(e: Env, vals: seq<bytes>): Env {
    if vals == [] then e else Bind(BindAll(e, vals[..|vals| - 1]), Anon, vals[|vals| - 1])
  }

  function EvalCmd(c: Cmd, e: Env, w: World): Option<Env> {
    match c
    case Push(b) => Some(Bind(e, Anon, b))
    case Number(n) => Some(Bind(e, Anon, SignedNum(n)))
    case Do(code, i, k) =>
      (match Exec(code, Flat(e), w)
       case None => None
       case Some(st) => if k <= |st| then Some(BindAll(Unbind(e, i), st[|st| - k..])) else None)
    case Rename(n) => (match e case Base(_) => None case Bind(r, _, v) => Some(Bind(r, n, v)))
    case Get(n) => Some(Bind(e, Anon, Lookup(e, n)))
    case Branch(yes, no) =>
      (match e
       case Base(_) => None
       case Bind(r, _, v) => if IsTrue(v) then Eval(yes, r, w) else Eval(no, r, w))
  }

  function Eval(p: Prog, e: Env, w: World): Option<Env> {
    match p
    case Nil => Some(e)
    case Then(q, c) => (match Eval(q, e, w) case None => None case Some(e') => EvalCmd(c, e', w))
  }

  // ---------- compiler correctness ----------

  lemma LocalArity(code: byte, a: seq<bytes>, w: World, i: nat, k: nat)
    requires Arity(code) == Some((i, k)) && Reads(code) == Some(|a|) && Local(code, a, w).Some?
    ensures var r := Local(code, a, w).value;
            |r| + i == |a| + k && (i == |a| || (i == 0 && |a| <= |r| && r[..|a|] == a))
  {
  }

  lemma NotLocal(code: byte)
    requires Arity(code).Some? && Reads(code).None?
    ensures (code == OP_DEPTH && Arity(code) == Some((0, 1))) || (code == OP_PICK && Arity(code) == Some((1, 1)))
  {
  }

  lemma IsLocal(code: byte)
    requires Reads(code).Some?
    ensures code != OP_DEPTH && code != OP_PICK
  {
  }

  /** An opcode touches only what its declared arity says: the items below the inputs stay. */
  lemma ExecArity(code: byte, st: seq<bytes>, w: World, i: nat, k: nat)
    requires Arity(code) == Some((i, k)) && i <= |st| && Exec(code, st, w).Some?
    ensures var r := Exec(code, st, w).value; |r| == |st| - i + k && r[..|st| - i] == st[..|st| - i]
  {
    hide Arity, Reads, Local;
    if Reads(code).None? {
      NotLocal(code);
    } else {
      IsLocal(code);
      var n := Reads(code).value;
      var a := st[|st| - n..];
      assert st == st[..|st| - n] + a;
      LocalArity(code, a, w, i, k);
      var out := Local(code, a, w).value;
      if i == 0 {
        assert out == a + out[n..];
        assert st[..|st| - n] + out == st + out[n..];
      }
    }
  }

  lemma {:induction false} FlatShape(e: Env)
    ensures |Flat(e)| == |BaseOf(e)| + |NamesOf(e)| && Flat(e)[..|BaseOf(e)|] == BaseOf(e)
  {
    if e.Bind? {
      FlatShape(e.rest);
    }
  }

  lemma {:induction false} UnbindShape(e: Env, n: nat)
    requires n <= |NamesOf(e)|
    ensures |NamesOf(e)| <= |Flat(e)|
    ensures Flat(Unbind(e, n)) == Pop(Flat(e), n) && NamesOf(Unbind(e, n)) == Pop(NamesOf(e), n)
    ensures BaseOf(Unbind(e, n)) == BaseOf(e)
  {
    FlatShape(e);
    if n != 0 {
      UnbindShape(e.rest, n - 1);
    }
  }

  lemma {:induction false} BindAllShape(e: Env, vals: seq<bytes>)
    ensures Flat(BindAll(e, vals)) == Flat(e) + vals && BaseOf(BindAll(e, vals)) == BaseOf(e)
    ensures NamesOf(BindAll(e, vals)) == NamesOf(e) + Anons(|vals|)
  {
    if vals != [] {
      BindAllShape(e, vals[..|vals| - 1]);
      assert Anons(|vals|) == Anons(|vals| - 1) + [Anon];
    }
  }

  lemma LastPosition(names: seq<Name>, top: Name, n: Name)
    requires n in names + [top]
    ensures top == n ==> Position(names + [top], n) == |names|
    ensures top != n ==> n in names && Position(names + [top], n) == Position(names, n)
  {
    assert (names + [top])[..|names|] == names;
  }

  lemma {:induction false} LookupAt(e: Env, n: Name)
    requires n in NamesOf(e)
    ensures |NamesOf(e)| <= |Flat(e)|
    ensures Lookup(e, n) == Flat(e)[|Flat(e)| - |NamesOf(e)| + Position(NamesOf(e), n)]
  {
    hide Position;
    FlatShape(e);
    FlatShape(e.rest);
    LastPosition(NamesOf(e.rest), e.name, n);
    var r := Flat(e.rest);
    if e.name != n {
      LookupAt(e.rest, n);
      var k := |r| - |NamesOf(e.rest)| + Position(NamesOf(e.rest), n);
      assert (r + [e.val])[k] == r[k];
    } else {
      assert (r + [e.val])[|r|] == e.val;
    }
  }

  lemma NumberRuns(n: nat, m: Machine, w: World)
    requires m.Executing()
    ensures Step(NumberInstr(n), m, w) == Some(m.(stack := m.stack + [SignedNum(n)]))
  {
    if 0 < n <= 16 {
      assert Minimal(n) == [n];
    }
  }

  /** What running the code of a program must produce: the values of the structured meaning on the same base. */
  function Expected(r: Option<Env>, m: Machine): Option<Machine> {
    match r case None => None case Some(e) => Some(m.(stack := Flat(e)))
  }

  /** Code that is switched off by an enclosing condition leaves the machine alone. */
  lemma {:induction false} EmitSkips(p: Prog, names: seq<Name>, m: Machine, w: World)
    requires Legal(p, names) && !m.Executing()
    ensures Run(Emit(p, names), m, w) == Some(m)
    decreases p, 0
  {
    if p.Then? {
      EmitSkips(p.init, names, m, w);
      EmitCmdSkips(p.last, NamesAfter(p.init, names), m, w);
      RunAppend(Emit(p.init, names), EmitCmd(p.last, NamesAfter(p.init, names)), m, w);
    }
  }

  lemma {:induction false} EmitCmdSkips(c: Cmd, names: seq<Name>, m: Machine, w: World)
    requires LegalCmd(c, names) && !m.Executing()
    ensures Run(EmitCmd(c, names), m, w) == Some(m)
    decreases c, 1
  {
    match c
    case Push(b) => RunOne(Data(b), m, w);
    case Number(n) => RunOne(NumberInstr(n), m, w);
    case Do(code, _, _) => RunOne(Op(code), m, w);
    case Rename(_) =>
    case Get(n) => RunTwo(EmitCmd(c, names)[0], Op(OP_PICK), m, w);
    case Branch(yes, no) =>
      var below := Pop(names, 1);
      NotExecuting(m);
      EmitSkips(yes, below, m.(conds := m.conds + [false]), w);
      EmitSkips(no, below, m.(conds := m.conds + [true]), w);
      BranchSkips(Emit(yes, below), Emit(no, below), m, w);
  }

  lemma BranchSkips(y: seq<Instr>, n: seq<Instr>, m: Machine, w: World)
    requires !m.Executing()
    requires Run(y, m.(conds := m.conds + [false]), w) == Some(m.(conds := m.conds + [false]))
    requires Run(n, m.(conds := m.conds + [true]), w) == Some(m.(conds := m.conds + [true]))
    ensures Run([Op(OP_IF)] + y + [Op(OP_ELSE)] + n + [Op(OP_ENDIF)], m, w) == Some(m)
  {
    RunBranch(y, n, m, w);
    var c := m.conds;
    assert (c + [false])[..|c|] == c && (c + [true])[..|c|] == c;
  }

  lemma NotExecuting(m: Machine)
    requires !m.Executing()
    ensures !m.(conds := m.conds + [true]).Executing() && !m.(conds := m.conds + [false]).Executing()
  {
    var i :| 0 <= i < |m.conds| && !m.conds[i];
    assert !(m.conds + [true])[i] && !(m.conds + [false])[i];
  }

  lemma RunTwo(i: Instr, j: Instr, m: Machine, w: World)
    ensures Run([i, j], m, w) == match Step(i, m, w) case None => None case Some(m') => Step(j, m', w)
  {
    assert [i, j] == [i] + [j];
    RunAppend([i], [j], m, w);
    RunOne(i, m, w);
    if Step(i, m, w).Some? {
      RunOne(j, Step(i, m, w).value, w);
    }
  }

  /** Running a flattened branch, one part at a time. */
  lemma RunBranch(y: seq<Instr>, n: seq<Instr>, m: Machine, w: World)
    ensures Run([Op(OP_IF)] + y + [Op(OP_ELSE)] + n + [Op(OP_ENDIF)], m, w) ==
            AndStep(AndThen(AndStep(AndThen(Step(Op(OP_IF), m, w), y, w), Op(OP_ELSE), w), n, w), Op(OP_ENDIF), w)
  {
    RunOne(Op(OP_IF), m, w);
    RunAppend([Op(OP_IF)], y, m, w);
    RunAppendOne([Op(OP_IF)] + y, Op(OP_ELSE), m, w);
    RunAppend([Op(OP_IF)] + y + [Op(OP_ELSE)], n, m, w);
    RunAppendOne([Op(OP_IF)] + y + [Op(OP_ELSE)] + n, Op(OP_ENDIF), m, w);
  }

  function AndStep(r: Option<Machine>, i: Instr, w: World): Option<Machine> {
    match r case None => None case Some(m) => Step(i, m, w)
  }

  lemma RunAppendOne(p: seq<Instr>, i: Instr, m: Machine, w: World)
    ensures Run(p + [i], m, w) == AndStep(Run(p, m, w), i, w)
  {
    RunAppend(p, [i], m, w);
    if Run(p, m, w).Some? {
      RunOne(i, Run(p, m, w).value, w);
    }
  }

  /** For every program a caller may build, on every base stack: the flat code run with its condition stack
      fails exactly when the structured meaning fails, and otherwise leaves the base stack followed by one
      value per tracked name, those the structured meaning assigns. */
  lemma {:induction false} Correct(p: Prog, e: Env, m: Machine, w: World)
    requires Legal(p, NamesOf(e)) && m.Executing() && m.stack == Flat(e)
    ensures Run(Emit(p, NamesOf(e)), m, w) == Expected(Eval(p, e, w), m)
    ensures Eval(p, e, w).Some? ==>
              var r := Eval(p, e, w).value; NamesOf(r) == NamesAfter(p, NamesOf(e)) && BaseOf(r) == BaseOf(e)
    decreases p, 0
  {
    if p.Then? {
      Correct(p.init, e, m, w);
      var names := NamesOf(e);
      RunAppend(Emit(p.init, names), EmitCmd(p.last, NamesAfter(p.init, names)), m, w);
      if Eval(p.init, e, w).Some? {
        var e' := Eval(p.init, e, w).value;
        CorrectCmd(p.last, e', m.(stack := Flat(e')), w);
      }
    }
  }

  lemma {:induction false} CorrectCmd(c: Cmd, e: Env, m: Machine, w: World)
    requires LegalCmd(c, NamesOf(e)) && m.Executing() && m.stack == Flat(e)
    ensures Run(EmitCmd(c, NamesOf(e)), m, w) == Expected(EvalCmd(c, e, w), m)
    ensures EvalCmd(c, e, w).Some? ==>
              var r := EvalCmd(c, e, w).value; NamesOf(r) == NamesCmd(c, NamesOf(e)) && BaseOf(r) == BaseOf(e)
    decreases c, 1
  {
    match c
    case Push(b) => RunOne(Data(b), m, w);
    case Number(n) =>
      RunOne(NumberInstr(n), m, w);
      NumberRuns(n, m, w);
    case Do(code, _, _) => CorrectDo(c, e, m, w);
    case Rename(_) =>
      assert e.Bind?;
      assert Pop(NamesOf(e), 1) == NamesOf(e.rest);
    case Get(n) => CorrectGet(n, e, m, w);
    case Branch(yes, no) =>
      CorrectBranch(yes, no, e, m, w);
      assert Pop(NamesOf(e), 1) == NamesOf(e.rest);
      Correct(if IsTrue(e.val) then yes else no, e.rest, m.(stack := Flat(e.rest), conds := m.conds + [true]), w);
  }

  lemma CorrectDo(c: Cmd, e: Env, m: Machine, w: World)
    requires c.Do? && LegalCmd(c, NamesOf(e)) && m.Executing() && m.stack == Flat(e)
    ensures Run(EmitCmd(c, NamesOf(e)), m, w) == Expected(EvalCmd(c, e, w), m)
    ensures EvalCmd(c, e, w).Some? ==>
              var r := EvalCmd(c, e, w).value; NamesOf(r) == NamesCmd(c, NamesOf(e)) && BaseOf(r) == BaseOf(e)
  {
    hide Exec, Step, Arity;
    RunOne(Op(c.code), m, w);
    FlatShape(e);
    StepDo(c.code, c.inputs, c.outputs, m, w);
    EvalDo(c.code, c.inputs, c.outputs, e, w);
  }

  lemma EvalDo(code: byte, i: nat, k: nat, e: Env, w: World)
    requires Arity(code) == Some((i, k)) && i <= |NamesOf(e)|
    ensures EvalCmd(Do(code, i, k), e, w).None? <==> Exec(code, Flat(e), w).None?
    ensures EvalCmd(Do(code, i, k), e, w).Some? ==>
              var r := EvalCmd(Do(code, i, k), e, w).value;
              && Flat(r) == Exec(code, Flat(e), w).value && BaseOf(r) == BaseOf(e)
              && NamesOf(r) == Pop(NamesOf(e), i) + Anons(k)
  {
    hide Exec, Arity, BindAll, Unbind;
    FlatShape(e);
    UnbindShape(e, i);
    if Exec(code, Flat(e), w).Some? {
      var st := Exec(code, Flat(e), w).value;
      ExecArity(code, Flat(e), w, i, k);
      Rebound(Unbind(e, i), st, |Flat(e)| - i, k);
      assert EvalCmd(Do(code, i, k), e, w) == Some(BindAll(Unbind(e, i), st[|st| - k..]));
    }
  }

  lemma StepDo(code: byte, i: nat, k: nat, m: Machine, w: World)
    requires Arity(code) == Some((i, k)) && i <= |m.stack| && m.Executing()
    ensures Step(Op(code), m, w) ==
            match Exec(code, m.stack, w) case None => None case Some(st) => Some(m.(stack := st))
    ensures Exec(code, m.stack, w).Some? ==>
              var r := Exec(code, m.stack, w).value;
              |r| == |m.stack| - i + k && r[..|m.stack| - i] == m.stack[..|m.stack| - i]
  {
    hide Exec;
    if Exec(code, m.stack, w).Some? {
      ExecArity(code, m.stack, w, i, k);
    }
  }

  lemma Rebound(below: Env, st: seq<bytes>, n: nat, k: nat)
    requires n + k == |st| && st[..n] == Flat(below)
    ensures var r := BindAll(below, st[|st| - k..]);
            Flat(r) == st && BaseOf(r) == BaseOf(below) && NamesOf(r) == NamesOf(below) + Anons(k)
  {
    BindAllShape(below, st[n..]);
    assert st == st[..n] + st[n..];
  }

  lemma CorrectGet(n: Name, e: Env, m: Machine, w: World)
    requires n in NamesOf(e) && m.Executing() && m.stack == Flat(e)
    ensures Run(EmitCmd(Get(n), NamesOf(e)), m, w) == Expected(EvalCmd(Get(n), e, w), m)
  {
    hide Exec, Step, Position;
    var depth := |NamesOf(e)| - 1 - Position(NamesOf(e), n);
    LookupAt(e, n);
    RunTwo(NumberInstr(depth), Op(OP_PICK), m, w);
    NumberRuns(depth, m, w);
    SignedNumVal(depth);
    PickRuns(m, SignedNum(depth), w);
  }

  lemma PickRuns(m: Machine, d: bytes, w: World)
    requires m.Executing() && Val(d) < |m.stack|
    ensures Step(Op(OP_PICK), m.(stack := m.stack + [d]), w) ==
            Some(m.(stack := m.stack + [m.stack[|m.stack| - 1 - Val(d)]]))
  {
    hide Local, Reads;
    var pushed := m.stack + [d];
    assert pushed[..|pushed| - 1] == m.stack;
  }

  lemma {:induction false} CorrectBranch(yes: Prog, no: Prog, e: Env, m: Machine, w: World)
    requires LegalCmd(Branch(yes, no), NamesOf(e)) && m.Executing() && m.stack == Flat(e)
    ensures e.Bind? && Run(EmitCmd(Branch(yes, no), NamesOf(e)), m, w) ==
                       Expected(if IsTrue(e.val) then Eval(yes, e.rest, w) else Eval(no, e.rest, w), m)
    decreases Branch(yes, no), 0
  {
    var r, below := e.rest, Pop(NamesOf(e), 1);
    assert below == NamesOf(r);
    var on := m.(stack := Flat(r), conds := m.conds + [true]);
    var off := m.(stack := Flat(r), conds := m.conds + [false]);
    if IsTrue(e.val) {
      Correct(yes, r, on, w);
      if Eval(yes, r, w).Some? {
        var after := off.(stack := Flat(Eval(yes, r, w).value));
        assert !after.Executing() by { assert !after.conds[|m.conds|]; }
        EmitSkips(no, below, after, w);
      }
      BranchTaken(Emit(yes, below), Emit(no, below), m, w);
    } else {
      assert !off.Executing() by { assert !off.conds[|m.conds|]; }
      EmitSkips(yes, below, off, w);
      Correct(no, r, on, w);
      BranchNotTaken(Emit(yes, below), Emit(no, below), m, w);
    }
  }

  /** The result of a branch part, with the condition it ran under removed. */
  function Leave(r: Option<Machine>, conds: seq<bool>): Option<Machine> {
    match r case None => None case Some(m) => Some(m.(conds := conds))
  }

  lemma BranchTaken(y: seq<Instr>, n: seq<Instr>, m: Machine, w: World)
    requires m.Executing() && m.stack != [] && IsTrue(m.stack[|m.stack| - 1])
    requires var r := Run(y, m.(stack := m.stack[..|m.stack| - 1], conds := m.conds + [true]), w);
             r.Some? ==> r.value.conds == m.conds + [true] &&
                         var off := r.value.(conds := m.conds + [false]); Run(n, off, w) == Some(off)
    ensures Run([Op(OP_IF)] + y + [Op(OP_ELSE)] + n + [Op(OP_ENDIF)], m, w) ==
            Leave(Run(y, m.(stack := m.stack[..|m.stack| - 1], conds := m.conds + [true]), w), m.conds)
  {
    RunBranch(y, n, m, w);
    var c := m.conds;
    assert (c + [false])[..|c|] == c && (c + [true])[..|c|] == c;
  }

  lemma BranchNotTaken(y: seq<Instr>, n: seq<Instr>, m: Machine, w: World)
    requires m.Executing() && m.stack != [] && !IsTrue(m.stack[|m.stack| - 1])
    requires var off := m.(stack := m.stack[..|m.stack| - 1], conds := m.conds + [false]); Run(y, off, w) == Some(off)
    requires var r := Run(n, m.(stack := m.stack[..|m.stack| - 1], conds := m.conds + [true]), w);
             r.Some? ==> r.value.conds == m.conds + [true]
    ensures Run([Op(OP_IF)] + y + [Op(OP_ELSE)] + n + [Op(OP_ENDIF)], m, w) ==
            Leave(Run(n, m.(stack := m.stack[..|m.stack| - 1], conds := m.conds + [true]), w), m.conds)
  {
    RunBranch(y, n, m, w);
    var c := m.conds;
    assert (c + [false])[..|c|] == c && (c + [true])[..|c|] == c;
  }

  // ---------- any stack ----------

  lemma ExecSome(code: byte, st: seq<bytes>, w: World, i: nat, k: nat)
    requires Arity(code) == Some((i, k)) && Exec(code, st, w).Some?
    ensures i <= |st| && |Exec(code, st, w).value| == |st| - i + k
  {
    hide Arity, Local;
    if Reads(code).None? {
      NotLocal(code);
    } else {
      var n := Reads(code).value;
      LocalArity(code, st[|st| - n..], w, i, k);
    }
    ExecArity(code, st, w, i, k);
  }

  /** On any stack whatever, also one too short for the tracked names, code that succeeds changes the stack
      height by what the names say and restores the alternate stack and the conditions. */
  lemma {:induction false} Balanced(p: Prog, names: seq<Name>, m: Machine, w: World)
    requires Legal(p, names) && m.Executing() && Run(Emit(p, names), m, w).Some?
    ensures var r := Run(Emit(p, names), m, w).value;
            && |r.stack| + |names| == |m.stack| + |NamesAfter(p, names)|
            && r.alt == m.alt && r.conds == m.conds
    decreases p, 0
  {
    hide Step, Exec;
    if p.Then? {
      RunAppend(Emit(p.init, names), EmitCmd(p.last, NamesAfter(p.init, names)), m, w);
      Balanced(p.init, names, m, w);
      BalancedCmd(p.last, NamesAfter(p.init, names), Run(Emit(p.init, names), m, w).value, w);
    }
  }

  lemma {:induction false} BalancedCmd(c: Cmd, names: seq<Name>, m: Machine, w: World)
    requires LegalCmd(c, names) && m.Executing() && Run(EmitCmd(c, names), m, w).Some?
    ensures var r := Run(EmitCmd(c, names), m, w).value;
            && |r.stack| + |names| == |m.stack| + |NamesCmd(c, names)|
            && r.alt == m.alt && r.conds == m.conds
    decreases c, 1
  {
    hide Exec;
    match c
    case Push(b) => RunOne(Data(b), m, w);
    case Number(n) =>
      RunOne(NumberInstr(n), m, w);
      NumberRuns(n, m, w);
    case Do(code, i, k) =>
      RunOne(Op(code), m, w);
      BalancedDo(code, i, k, m, w);
    case Rename(_) =>
    case Get(n) => BalancedGet(n, names, m, w);
    case Branch(yes, no) => BalancedBranch(yes, no, names, m, w);
  }

  lemma BalancedDo(code: byte, i: nat, k: nat, m: Machine, w: World)
    requires Arity(code) == Some((i, k)) && m.Executing() && Step(Op(code), m, w).Some?
    ensures var r := Step(Op(code), m, w).value;
            i <= |m.stack| && |r.stack| == |m.stack| - i + k && r.alt == m.alt && r.conds == m.conds
  {
    hide Exec;
    if Exec(code, m.stack, w).Some? {
      ExecSome(code, m.stack, w, i, k);
    }
  }

  lemma BalancedGet(n: Name, names: seq<Name>, m: Machine, w: World)
    requires n in names && m.Executing() && Run(EmitCmd(Get(n), names), m, w).Some?
    ensures var r := Run(EmitCmd(Get(n), names), m, w).value;
            |r.stack| == |m.stack| + 1 && r.alt == m.alt && r.conds == m.conds
  {
    hide Step, Exec;
    var depth := |names| - 1 - Position(names, n);
    RunTwo(NumberInstr(depth), Op(OP_PICK), m, w);
    NumberRuns(depth, m, w);
    BalancedDo(OP_PICK, 1, 1, m.(stack := m.stack + [SignedNum(depth)]), w);
  }

  lemma {:induction false} BalancedBranch(yes: Prog, no: Prog, names: seq<Name>, m: Machine, w: World)
    requires LegalCmd(Branch(yes, no), names) && m.Executing()
    requires Run(EmitCmd(Branch(yes, no), names), m, w).Some?
    ensures var r := Run(EmitCmd(Branch(yes, no), names), m, w).value;
            && |r.stack| + |names| == |m.stack| + |NamesAfter(yes, Pop(names, 1))|
            && r.alt == m.alt && r.conds == m.conds
    decreases Branch(yes, no), 0
  {
    hide Exec, Step;
    var below := Pop(names, 1);
    var y, n := Emit(yes, below), Emit(no, below);
    BranchEntered(y, n, m, w);
    var on := m.(stack := m.stack[..|m.stack| - 1], conds := m.conds + [true]);
    var off := on.(conds := m.conds + [false]);
    assert !off.Executing() by { assert !off.conds[|m.conds|]; }
    if IsTrue(m.stack[|m.stack| - 1]) {
      Balanced(yes, below, on, w);
      var after := Run(y, on, w).value.(conds := m.conds + [false]);
      assert !after.Executing() by { assert !after.conds[|m.conds|]; }
      EmitSkips(no, below, after, w);
      BranchTaken(y, n, m, w);
    } else {
      EmitSkips(yes, below, off, w);
      NoSideEntered(y, n, m, w);
      Balanced(no, below, on, w);
      BranchNotTaken(y, n, m, w);
    }
  }

  lemma BranchEntered(y: seq<Instr>, n: seq<Instr>, m: Machine, w: World)
    requires m.Executing() && Run([Op(OP_IF)] + y + [Op(OP_ELSE)] + n + [Op(OP_ENDIF)], m, w).Some?
    ensures m.stack != []
    ensures IsTrue(m.stack[|m.stack| - 1]) ==>
              Run(y, m.(stack := m.stack[..|m.stack| - 1], conds := m.conds + [true]), w).Some?
  {
    RunBranch(y, n, m, w);
  }

  lemma NoSideEntered(y: seq<Instr>, n: seq<Instr>, m: Machine, w: World)
    requires m.Executing() && Run([Op(OP_IF)] + y + [Op(OP_ELSE)] + n + [Op(OP_ENDIF)], m, w).Some?
    requires m.stack != [] && !IsTrue(m.stack[|m.stack| - 1])
    requires var off := m.(stack := m.stack[..|m.stack| - 1], conds := m.conds + [false]); Run(y, off, w) == Some(off)
    ensures Run(n, m.(stack := m.stack[..|m.stack| - 1], conds := m.conds + [true]), w).Some?
  {
    RunBranch(y, n, m, w);
    var c := m.conds;
    assert (c + [false])[..|c|] == c;
  }

  // ---------- from program to bytes ----------

  lemma {:induction false} EmitOpcodes(p: Prog, names: seq<Name>)
    requires Legal(p, names)
    ensures forall i :: 0 <= i < |Emit(p, names)| ==> Emit(p, names)[i].Data? || Emit(p, names)[i].WellFormed()
    decreases p, 0
  {
    if p.Then? {
      EmitOpcodes(p.init, names);
      EmitCmdOpcodes(p.last, NamesAfter(p.init, names));
    }
  }

  lemma {:induction false} EmitCmdOpcodes(c: Cmd, names: seq<Name>)
    requires LegalCmd(c, names)
    ensures forall i :: 0 <= i < |EmitCmd(c, names)| ==> EmitCmd(c, names)[i].Data? || EmitCmd(c, names)[i].WellFormed()
    decreases c, 1
  {
    if c.Branch? {
      EmitOpcodes(c.yes, Pop(names, 1));
      EmitOpcodes(c.no, Pop(names, 1));
    }
  }

  /** The bytes of a legal program, followed by any other script bytes, run as the structured meaning of the
      program followed by the rest. */
  lemma BytesRun(p: Prog, rest: bytes, e: Env, m: Machine, w: World)
    requires Legal(p, NamesOf(e)) && m.Executing() && m.stack == Flat(e)
    requires |Assemble(Emit(p, NamesOf(e)))| < U32
    ensures RunBytes(Assemble(Emit(p, NamesOf(e))) + rest, m, w) ==
            match Parse(rest) case None => None case Some(tail) => AndThen(Expected(Eval(p, e, w), m), tail, w)
  {
    var code := Emit(p, NamesOf(e));
    EmitOpcodes(p, NamesOf(e));
    ShortPushes(code);
    ParseAssembled(code, rest);
    Correct(p, e, m, w);
    if Parse(rest).Some? {
      RunAppend(code, Parse(rest).value, m, w);
    }
  }
}
