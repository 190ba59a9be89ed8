// Reusable functions in the interpreter: OP_DEFINE stores a body, OP_INVOKE runs it in the shared machine state.
// Execution terminates, the table of active functions is restored on every exit, and the work over all nested bodies
// is bounded by the top script plus the byte allowance.
module Functions {
  import opened Bytes
  import opened Script

  const OP_NOTIF: byte := 0x64
  const OP_CODESEPARATOR: byte := 0xab
  const OP_DEFINE: byte := 0xbb
  const OP_INVOKE: byte := 0xbc
  const MAX_BODY_BYTES: nat := 4_000_000

  /** Interpreter limits that other source files fix. */
  datatype Limits = Limits(element: nat, entries: nat, total: nat, copyCost: nat)

  /** The remaining opcodes, and the scan for OP_SUCCESS in a body: absent, or whether it makes the script succeed. */
  datatype Opcodes = Opcodes(run: (byte, seq<bytes>, seq<bytes>) -> Option<(seq<bytes>, seq<bytes>)>,
                             scan: bytes -> Option<bool>)

  datatype Shared = Shared(stack: seq<bytes>, alt: seq<bytes>, definitions: seq<Option<bytes>>, active: seq<bool>,
                           count: nat, stored: nat, invoked: nat, budget: nat, executed: nat) {
    predicate Tables() { |definitions| == 256 && |active| == 256 }
  }

  datatype Kind = Fail | Done | Success

  datatype Outcome = Outcome(kind: Kind, s: Shared)

  // ---------- identifiers ----------

  /** `ParseFunctionId`: zero is the empty string, other identifiers one nonzero byte. */
  function ParseId(b: bytes): Option<byte> {
    if b == [] then Some(0) else if |b| != 1 || b[0] == 0 then None else Some(b[0])
  }

  /** Only the minimal encoding of a byte names a function, so no function has two names. */
  lemma ParseIdMinimal(b: bytes, id: byte)
    ensures ParseId(b) == Some(id) <==> b == Minimal(id)
  {
    if id != 0 {
      assert Minimal(id) == [id] + Minimal(0);
    }
  }

  // ---------- counting ----------

  function Inactive(active: seq<bool>): nat {
    if active == [] then 0
    else Inactive(active[..|active| - 1]) + if active[|active| - 1] then 0 else 1
  }

  lemma {:induction false} ActivateOne(active: seq<bool>, i: nat)
    requires i < |active| && !active[i]
    ensures Inactive(active[i := true]) == Inactive(active) - 1
  {
    var n := |active| - 1;
    if i < n {
      ActivateOne(active[..n], i);
      assert active[i := true][..n] == active[..n][i := true];
    } else {
      assert active[i := true][..n] == active[..n];
    }
  }

  lemma {:induction false} SomeInactive(active: seq<bool>, i: nat)
    requires i < |active| && !active[i]
    ensures Inactive(active) > 0
  {
    if i < |active| - 1 {
      SomeInactive(active[..|active| - 1], i);
    }
  }

  function TotalSize(items: seq<bytes>): nat {
    if items == [] then 0 else TotalSize(items[..|items| - 1]) + |items[|items| - 1]|
  }

  function Defined(d: seq<Option<bytes>>): nat {
    if d == [] then 0 else Defined(d[..|d| - 1]) + if d[|d| - 1].Some? then 1 else 0
  }

  function Stored(d: seq<Option<bytes>>): nat {
    if d == [] then 0
    else Stored(d[..|d| - 1]) + match d[|d| - 1] case Some(b) => |b| case None => 0
  }

  lemma {:induction false} DefineOne(d: seq<Option<bytes>>, i: nat, b: bytes)
    requires i < |d| && d[i].None?
    ensures Defined(d[i := Some(b)]) == Defined(d) + 1 && Stored(d[i := Some(b)]) == Stored(d) + |b|
  {
    var n := |d| - 1;
    if i < n {
      DefineOne(d[..n], i, b);
      assert d[i := Some(b)][..n] == d[..n][i := Some(b)];
    } else {
      assert d[i := Some(b)][..n] == d[..n];
    }
  }

  // ---------- one opcode ----------

  predicate Fits(limit: nat, items: seq<bytes>) { forall i :: 0 <= i < |items| ==> |items[i]| <= limit }

  /** The size limits that hold after every opcode: definitions count with the stacks, in entries and in bytes. */
  predicate InLimits(lim: Limits, s: Shared) {
    && s.count + |s.stack| + |s.alt| <= lim.entries
    && s.stored + TotalSize(s.stack) + TotalSize(s.alt) <= lim.total
  }

  /** `invoked > MAX - size`, the subtraction wrapping as machine words do. */
  predicate OverAllowance(invoked: nat, size: nat)
    requires size < U64
  {
    invoked > (MAX_BODY_BYTES + U64 - size) % U64
  }

  /** The test keeps the allowance for bodies up to the allowance; a larger body passes it whenever the wrapped
      difference exceeds what was invoked, so the bound rests on the element limit. */
  lemma AllowanceExact(invoked: nat, size: nat)
    requires invoked <= MAX_BODY_BYTES && size < U64
    ensures size <= MAX_BODY_BYTES ==> (!OverAllowance(invoked, size) <==> invoked + size <= MAX_BODY_BYTES)
    ensures size > MAX_BODY_BYTES ==> (!OverAllowance(invoked, size) <==> invoked + size <= MAX_BODY_BYTES + U64)
  {
  }

  /** A first body one byte past the allowance passes. */
  lemma AllowanceEscaped()
    ensures !OverAllowance(0, MAX_BODY_BYTES + 1)
  {
  }

  predicate Executing(conds: seq<bool>) { forall i :: 0 <= i < |conds| ==> conds[i] }

  function Define(s: Shared): Option<Shared>
    requires s.Tables()
  {
    var n := |s.stack|;
    if n < 2 then None
    else match ParseId(s.stack[n - 1])
      case None => None
      case Some(id) =>
        if s.definitions[id].Some? then None
        else
          var body := s.stack[n - 2];
          Some(s.(stack := s.stack[..n - 2], definitions := s.definitions[id := Some(body)],
                  count := s.count + 1, stored := s.stored + |body|))
  }

  /** The function to invoke, and the state with its identifier popped and its cost charged. */
  function Invoked(lim: Limits, s: Shared): Option<(byte, bytes, Shared)>
    requires s.Tables()
  {
    var n := |s.stack|;
    if n < 1 then None
    else match ParseId(s.stack[n - 1])
      case None => None
      case Some(id) =>
        if s.definitions[id].None? || s.active[id] then None
        else
          var body := s.definitions[id].value;
          if |body| >= U64 || OverAllowance(s.invoked, |body|) || |body| * lim.copyCost > s.budget then None
          else Some((id, body, s.(stack := s.stack[..n - 1], invoked := (s.invoked + |body|) % U64,
                                  budget := s.budget - |body| * lim.copyCost)))
  }

  /** Conditionals, pushes and the other opcodes: the new conditions and the two stacks. */
  function Plain(ops: Opcodes, lim: Limits, i: Instr, conds: seq<bool>, stack: seq<bytes>, alt: seq<bytes>):
    Option<(seq<bool>, seq<bytes>, seq<bytes>)>
  {
    var n := |stack|;
    if i == Op(OP_IF) then
      if !Executing(conds) then Some((conds + [false], stack, alt))
      else if n == 0 then None
      else Some((conds + [IsTrue(stack[n - 1])], stack[..n - 1], alt))
    else if i == Op(OP_NOTIF) then
      if !Executing(conds) then Some((conds + [false], stack, alt))
      else if n == 0 then None
      else Some((conds + [!IsTrue(stack[n - 1])], stack[..n - 1], alt))
    else if i == Op(OP_ELSE) then
      if conds == [] then None else Some((conds[..|conds| - 1] + [!conds[|conds| - 1]], stack, alt))
    else if i == Op(OP_ENDIF) then
      if conds == [] then None else Some((conds[..|conds| - 1], stack, alt))
    else if !Executing(conds) then Some((conds, stack, alt))
    else match i
      case Data(b) => Some((conds, stack + [b], alt))
      case Small(k) => Some((conds, stack + [[k]], alt))
      case Op(code) =>
        match ops.run(code, stack, alt)
        case None => None
        case Some((st, al)) => if Fits(lim.element, st) && Fits(lim.element, al) then Some((conds, st, al)) else None
  }

  predicate Refused(lim: Limits, i: Instr, conds: seq<bool>, within: bool) {
    || (within && Executing(conds) && i == Op(OP_CODESEPARATOR))
    || (i.Data? && |i.data| > lim.element)
  }

  // ---------- what every run keeps ----------

  /** Bodies and stack items within the element limit, counters equal to what they count, the allowance respected. */
  predicate Tracked(lim: Limits, s: Shared) {
    && s.Tables() && s.count == Defined(s.definitions) && s.stored == Stored(s.definitions)
    && Fits(lim.element, s.stack) && Fits(lim.element, s.alt)
    && (forall i :: 0 <= i < 256 && s.definitions[i].Some? ==> |s.definitions[i].value| <= lim.element)
    && s.invoked <= MAX_BODY_BYTES
  }

  /** No body is replaced, and the executed opcodes are covered by the script run and the bytes newly invoked. */
  predicate Progressed(length: nat, before: Shared, after: Shared) {
    && after.Tables() && before.Tables() && after.active == before.active
    && (forall i :: 0 <= i < 256 && before.definitions[i].Some? ==> after.definitions[i] == before.definitions[i])
    && before.invoked <= after.invoked && before.executed <= after.executed
    && after.executed - before.executed <= length + (after.invoked - before.invoked)
  }

  // ---------- runs ----------

  datatype Next = Stop(o: Outcome) | Go(conds: seq<bool>, s: Shared)

  function Leave(r: Outcome, id: byte): Outcome
    requires r.s.Tables()
  {
    Outcome(r.kind, r.s.(active := r.s.active[id := false]))
  }

  /** One instruction; invoking a function runs its body in the shared state with its identifier active. */
  function StepOne(ops: Opcodes, lim: Limits, i: Instr, conds: seq<bool>, s: Shared): (n: Next)
    requires s.Tables()
    ensures n.Stop? ==> n.o.s.Tables() && n.o.s.active == s.active && n.o.kind != Done
    ensures n.Go? ==> n.s.Tables() && n.s.active == s.active
    decreases Inactive(s.active), 0
  {
    if Executing(conds) && i == Op(OP_DEFINE) then
      match Define(s) case None => Stop(Outcome(Fail, s)) case Some(s2) => Go(conds, s2)
    else if Executing(conds) && i == Op(OP_INVOKE) then
      match Invoked(lim, s)
      case None => Stop(Outcome(Fail, s))
      case Some((id, body, s2)) =>
        match ops.scan(body)
        case Some(ok) => Stop(Outcome(if ok then Success else Fail, s2))
        case None =>
          ActivateOne(s.active, id);
          var r := Leave(RunScript(ops, lim, body, [], true, s2.(active := s2.active[id := true])), id);
          assert r.s.active == s.active;
          if r.kind == Done then Go(conds, r.s) else Stop(r)
    else
      match Plain(ops, lim, i, conds, s.stack, s.alt)
      case None => Stop(Outcome(Fail, s))
      case Some((c, st, al)) => Go(c, s.(stack := st, alt := al))
  }

  /** A script from some point on. Termination: invoking shrinks the set of inactive identifiers, and every other step
      shrinks the script. */
  function RunScript(ops: Opcodes, lim: Limits, script: bytes, conds: seq<bool>, within: bool, s: Shared): (r: Outcome)
    requires s.Tables()
    ensures r.s.Tables() && r.s.active == s.active
    decreases Inactive(s.active), |script|
  {
    if script == [] then Outcome(if conds == [] then Done else Fail, s)
    else
      match ParseOne(script)
      case None => Outcome(Fail, s)
      case Some((i, rest)) =>
        var s1 := s.(executed := s.executed + 1);
        if Refused(lim, i, conds, within) then Outcome(Fail, s1)
        else
          match StepOne(ops, lim, i, conds, s1)
          case Stop(o) => o
          case Go(c, s2) => if InLimits(lim, s2) then RunScript(ops, lim, rest, c, within, s2) else Outcome(Fail, s2)
  }

  // ---------- the bound ----------

  lemma DefineTracked(lim: Limits, s: Shared)
    requires Tracked(lim, s) && Define(s).Some?
    ensures Tracked(lim, Define(s).value) && Progressed(0, s, Define(s).value)
  {
    hide Defined, Stored;
    var n := |s.stack|;
    DefineOne(s.definitions, ParseId(s.stack[n - 1]).value, s.stack[n - 2]);
  }

  lemma InvokedTracked(lim: Limits, s: Shared)
    requires Tracked(lim, s) && Invoked(lim, s).Some? && lim.element <= MAX_BODY_BYTES
    ensures var (id, body, s2) := Invoked(lim, s).value;
            && Tracked(lim, s2) && s2.invoked == s.invoked + |body| && s2.executed == s.executed
            && s2.active == s.active
            && s2.definitions == s.definitions && !s.active[id]
  {
    hide Defined, Stored;
    var (id, body, s2) := Invoked(lim, s).value;
    AllowanceExact(s.invoked, |body|);
  }

  lemma PlainTracked(ops: Opcodes, lim: Limits, i: Instr, conds: seq<bool>, s: Shared)
    requires Tracked(lim, s) && lim.element >= 1 && (i.Data? ==> |i.data| <= lim.element)
    ensures var r := Plain(ops, lim, i, conds, s.stack, s.alt);
            r.Some? ==> var s2 := s.(stack := r.value.1, alt := r.value.2); Tracked(lim, s2) && Progressed(0, s, s2)
  {
    hide Defined, Stored;
  }

  lemma Chain(m: nat, n: nat, a: Shared, b: Shared, c: Shared)
    requires Progressed(m, a, b) && Progressed(n, b, c)
    ensures Progressed(m + n, a, c)
  {
  }

  lemma {:induction false} StepKeeps(ops: Opcodes, lim: Limits, i: Instr, conds: seq<bool>, s: Shared)
    requires Tracked(lim, s) && 1 <= lim.element <= MAX_BODY_BYTES && (i.Data? ==> |i.data| <= lim.element)
    ensures var n := StepOne(ops, lim, i, conds, s); var r := if n.Stop? then n.o.s else n.s;
            Tracked(lim, r) && Progressed(0, s, r)
    decreases Inactive(s.active), 0, 1
  {
    hide Tracked, Progressed, Invoked, Define, Plain;
    SelfProgress(lim, s);
    if Executing(conds) && i == Op(OP_DEFINE) {
      if Define(s).Some? {
        DefineTracked(lim, s);
      }
    } else if Executing(conds) && i == Op(OP_INVOKE) {
      if Invoked(lim, s).Some? {
        InvokeKeeps(ops, lim, s);
      }
    } else {
      PlainTracked(ops, lim, i, conds, s);
    }
  }

  lemma SelfProgress(lim: Limits, s: Shared)
    requires Tracked(lim, s)
    ensures Progressed(0, s, s) && s.Tables()
  {
  }

  /** The bytes a body adds to the allowance pay for its opcodes. */
  lemma {:induction false} InvokeKeeps(ops: Opcodes, lim: Limits, s: Shared)
    requires Tracked(lim, s) && 1 <= lim.element <= MAX_BODY_BYTES && Invoked(lim, s).Some?
    ensures var (id, body, s2) := Invoked(lim, s).value; var on := s2.(active := s2.active[id := true]);
            && Tracked(lim, s2) && Progressed(0, s, s2)
            && var r := Leave(RunScript(ops, lim, body, [], true, on), id).s; Tracked(lim, r) && Progressed(0, s, r)
    decreases Inactive(s.active), 0, 0
  {
    hide Invoked, RunScript, Defined, Stored, ParseId;
    InvokedTracked(lim, s);
    var (id, body, s2) := Invoked(lim, s).value;
    var on := s2.(active := s2.active[id := true]);
    ActivateOne(s.active, id);
    RunKeeps(ops, lim, body, [], true, on);
    var r := RunScript(ops, lim, body, [], true, on);
    assert r.s.active[id := false] == s.active;
  }

  /** Every run, however it ends, keeps the counters exact, replaces no body, restores the table of active functions,
      and executes no more opcodes than its script has bytes plus the bytes it newly invokes. */
  lemma {:induction false} RunKeeps(ops: Opcodes, lim: Limits, script: bytes, conds: seq<bool>, within: bool, s: Shared)
    requires Tracked(lim, s) && 1 <= lim.element <= MAX_BODY_BYTES
    ensures var r := RunScript(ops, lim, script, conds, within, s).s; Tracked(lim, r) && Progressed(|script|, s, r)
    decreases Inactive(s.active), |script|
  {
    hide Tracked, Progressed, StepOne, Refused, InLimits, ParseOne;
    SelfProgress(lim, s);
    if script == [] {
    } else if ParseOne(script).None? {
      Longer(|script|, s, s);
    } else {
      var (i, rest) := ParseOne(script).value;
      var s1 := s.(executed := s.executed + 1);
      Counted(lim, s);
      Longer(|script| - 1, s, s1);
      if !Refused(lim, i, conds, within) {
        assert i.Data? ==> |i.data| <= lim.element by { NotRefused(lim, i, conds, within); }
        StepKeeps(ops, lim, i, conds, s1);
        var n := StepOne(ops, lim, i, conds, s1);
        var s2 := if n.Stop? then n.o.s else n.s;
        Chain(1, 0, s, s1, s2);
        Longer(|script| - 1, s, s2);
        if n.Go? && InLimits(lim, s2) {
          RunKeeps(ops, lim, rest, n.conds, within, s2);
          var r := RunScript(ops, lim, rest, n.conds, within, s2).s;
          Chain(1, |rest|, s, s2, r);
          Longer(|script| - 1 - |rest|, s, r);
        }
      }
    }
  }

  lemma NotRefused(lim: Limits, i: Instr, conds: seq<bool>, within: bool)
    requires !Refused(lim, i, conds, within)
    ensures i.Data? ==> |i.data| <= lim.element
  {
  }

  lemma Counted(lim: Limits, s: Shared)
    requires Tracked(lim, s)
    ensures var s1 := s.(executed := s.executed + 1); Tracked(lim, s1) && Progressed(1, s, s1)
  {
    hide Defined, Stored;
  }

  /** A bound may be weakened. */
  lemma Longer(extra: nat, a: Shared, b: Shared)
    ensures forall n: nat :: Progressed(n, a, b) ==> Progressed(n + extra, a, b)
  {
  }

  function Blank(stack: seq<bytes>, budget: nat): Shared {
    Shared(stack, [], seq(256, _ => None), seq(256, _ => false), 0, 0, 0, budget, 0)
  }

  lemma {:induction false} NoneDefined(n: nat)
    ensures var d: seq<Option<bytes>> := seq(n, _ => None); Defined(d) == 0 && Stored(d) == 0
  {
    if n != 0 {
      NoneDefined(n - 1);
      var d: seq<Option<bytes>> := seq(n, _ => None);
      assert d[..n - 1] == seq(n - 1, _ => None);
    }
  }

  /** Total nested work: a top-level script executes at most its own length plus four million opcodes over all the
      function bodies it invokes, whatever they define and invoke in turn. */
  lemma NestedWorkBounded(ops: Opcodes, lim: Limits, script: bytes, stack: seq<bytes>, budget: nat)
    requires 1 <= lim.element <= MAX_BODY_BYTES && Fits(lim.element, stack)
    ensures var r := RunScript(ops, lim, script, [], false, Blank(stack, budget)).s;
            && r.executed <= |script| + 4_000_000 && r.active == Blank(stack, budget).active
            && r.count == Defined(r.definitions) && r.stored == Stored(r.definitions)
  {
    hide RunScript, Defined, Stored;
    NoneDefined(256);
    RunKeeps(ops, lim, script, [], false, Blank(stack, budget));
  }

  // ---------- verdicts ----------

  /** Some stored body holds an opcode that makes a script succeed. */
  predicate ScannedTrue(ops: Opcodes, d: seq<Option<bytes>>) {
    exists i :: 0 <= i < |d| && d[i].Some? && ops.scan(d[i].value) == Some(true)
  }

  /** No body is lost. */
  predicate Keeps(d: seq<Option<bytes>>, e: seq<Option<bytes>>) {
    |d| == |e| && forall i :: 0 <= i < |d| && d[i].Some? ==> e[i] == d[i]
  }

  lemma KeepsChain(a: seq<Option<bytes>>, b: seq<Option<bytes>>, c: seq<Option<bytes>>)
    requires Keeps(a, b) && Keeps(b, c)
    ensures Keeps(a, c)
  {
  }

  lemma {:induction false} StepVerdict(ops: Opcodes, lim: Limits, i: Instr, conds: seq<bool>, s: Shared)
    requires s.Tables()
    ensures var n := StepOne(ops, lim, i, conds, s); var r := if n.Stop? then n.o.s else n.s;
            Keeps(s.definitions, r.definitions) && (n.Stop? && n.o.kind == Success ==> ScannedTrue(ops, r.definitions))
    decreases Inactive(s.active), 0, 1
  {
    if Executing(conds) && i == Op(OP_INVOKE) && Invoked(lim, s).Some? {
      var (id, body, s2) := Invoked(lim, s).value;
      if ops.scan(body).None? {
        ActivateOne(s.active, id);
        RunVerdict(ops, lim, body, [], true, s2.(active := s2.active[id := true]));
      } else {
        assert s2.definitions[id] == Some(body);
      }
    }
  }

  /** A run succeeds early only when the scan of some body it stored, and never replaced, says so. */
  lemma {:induction false} RunVerdict(ops: Opcodes, lim: Limits, script: bytes, conds: seq<bool>, within: bool,
                                      s: Shared)
    requires s.Tables()
    ensures var r := RunScript(ops, lim, script, conds, within, s);
            Keeps(s.definitions, r.s.definitions) && (r.kind == Success ==> ScannedTrue(ops, r.s.definitions))
    decreases Inactive(s.active), |script|
  {
    hide StepOne, Refused, InLimits, ParseOne, ScannedTrue, Keeps;
    KeepsSelf(s.definitions);
    if script != [] && ParseOne(script).Some? {
      var (i, rest) := ParseOne(script).value;
      var s1 := s.(executed := s.executed + 1);
      if !Refused(lim, i, conds, within) {
        StepVerdict(ops, lim, i, conds, s1);
        var n := StepOne(ops, lim, i, conds, s1);
        if n.Go? && InLimits(lim, n.s) {
          RunVerdict(ops, lim, rest, n.conds, within, n.s);
          KeepsChain(s.definitions, n.s.definitions, RunScript(ops, lim, rest, n.conds, within, n.s).s.definitions);
        }
      }
    }
  }

  lemma KeepsSelf(d: seq<Option<bytes>>)
    ensures Keeps(d, d)
  {
  }

  /** Under a scan that is never true no run ends in early success. */
  lemma NoEarlySuccess(ops: Opcodes, lim: Limits, script: bytes, conds: seq<bool>, within: bool, s: Shared)
    requires s.Tables() && forall b :: ops.scan(b) != Some(true)
    ensures RunScript(ops, lim, script, conds, within, s).kind != Success
  {
    hide RunScript;
    RunVerdict(ops, lim, script, conds, within, s);
  }

  /** Identifier `id` is on top, names `body`, is not running, and the body fits the allowance and the budget. */
  predicate Invocable(lim: Limits, s: Shared, id: byte, body: bytes) {
    && s.Tables() && s.stack != [] && s.stack[|s.stack| - 1] == Minimal(id) && s.definitions[id] == Some(body)
    && !s.active[id] && s.invoked + |body| <= 4_000_000 && |body| * lim.copyCost <= s.budget
  }

  /** The state in which the body starts: identifier popped, allowance and budget charged, opcode counted. */
  function Charged(lim: Limits, s: Shared, body: bytes): Shared
    requires s.stack != [] && |body| * lim.copyCost <= s.budget
  {
    s.(stack := s.stack[..|s.stack| - 1], invoked := s.invoked + |body|, budget := s.budget - |body| * lim.copyCost,
       executed := s.executed + 1)
  }

  /** An affordable invocation: a scan that says so ends the script in success, a scan that refuses ends it in failure,
      and without an opinion the verdict is that of the body, run with its identifier active. */
  lemma InvokeVerdict(ops: Opcodes, lim: Limits, within: bool, s: Shared, id: byte, body: bytes)
    requires Invocable(lim, s, id, body)
    ensures var r, c := RunScript(ops, lim, [OP_INVOKE], [], within, s), Charged(lim, s, body);
            && (ops.scan(body) == Some(true) ==> r == Outcome(Success, c))
            && (ops.scan(body) == Some(false) ==> r == Outcome(Fail, c))
            && (ops.scan(body) == None ==>
                  var inner := RunScript(ops, lim, body, [], true, c.(active := c.active[id := true]));
                  && r.s == inner.s.(active := s.active)
                  && r.kind == if inner.kind == Done && !InLimits(lim, r.s) then Fail else inner.kind)
  {
    hide InLimits, Inactive, Define;
    ParseIdMinimal(s.stack[|s.stack| - 1], id);
    var s1, c := s.(executed := s.executed + 1), Charged(lim, s, body);
    AllowanceExact(s.invoked, |body|);
    assert Invoked(lim, s1) == Some((id, body, c));
    assert ParseOne([OP_INVOKE]) == Some((Op(OP_INVOKE), []));
    if ops.scan(body).None? {
      var inner := RunScript(ops, lim, body, [], true, c.(active := c.active[id := true]));
      assert inner.s.active[id := false] == s.active;
      assert StepOne(ops, lim, Op(OP_INVOKE), [], s1) ==
             if inner.kind == Done then Go([], inner.s.(active := s.active))
             else Stop(Outcome(inner.kind, inner.s.(active := s.active)));
    }
  }

  lemma InvokedIsInvocable(lim: Limits, s: Shared)
    requires Tracked(lim, s) && lim.element <= 4_000_000 && Invoked(lim, s).Some?
    ensures Invocable(lim, s, Invoked(lim, s).value.0, Invoked(lim, s).value.1)
  {
    hide Defined, Stored;
    var (id, body, s2) := Invoked(lim, s).value;
    ParseIdMinimal(s.stack[|s.stack| - 1], id);
    AllowanceExact(s.invoked, |body|);
  }

  /** An invocation fails on an empty stack, a name that is none, an undefined or running function, and a body over the
      allowance or the budget. */
  lemma InvokeRefused(ops: Opcodes, lim: Limits, within: bool, s: Shared)
    requires Tracked(lim, s) && lim.element <= 4_000_000 && forall id: byte, body :: !Invocable(lim, s, id, body)
    ensures RunScript(ops, lim, [OP_INVOKE], [], within, s).kind == Fail
  {
    hide InLimits, Inactive, Define, Tracked;
    var s1 := s.(executed := s.executed + 1);
    assert s.Tables() && Tracked(lim, s1) by { Counted(lim, s); }
    assert ParseOne([OP_INVOKE]) == Some((Op(OP_INVOKE), []));
    if Invoked(lim, s1).Some? {
      var id, body := Invoked(lim, s1).value.0, Invoked(lim, s1).value.1;
      assert !Invocable(lim, s, id, body);
      InvokedIsInvocable(lim, s1);
    }
  }

  /** A definition stores the body below a new name under that name, and fails for anything else. */
  lemma DefineVerdict(ops: Opcodes, lim: Limits, within: bool, s: Shared)
    requires s.Tables()
    ensures var n, r := |s.stack|, RunScript(ops, lim, [OP_DEFINE], [], within, s);
            && (forall id: byte :: n >= 2 && s.stack[n - 1] == Minimal(id) && s.definitions[id].None? ==>
                  var body := s.stack[n - 2];
                  && r.s
                       == s.(stack := s.stack[..n - 2], definitions := s.definitions[id := Some(body)],
                             count := s.count + 1,
                               stored := s.stored + |body|, executed := s.executed + 1)
                  && r.kind == if InLimits(lim, r.s) then Done else Fail)
            && ((forall id: byte :: n < 2 || s.stack[n - 1] != Minimal(id) || s.definitions[id].Some?)
                ==> r.kind == Fail)
  {
    hide InLimits, Inactive, Invoked;
    var n := |s.stack|;
    assert ParseOne([OP_DEFINE]) == Some((Op(OP_DEFINE), []));
    if n >= 2 {
      forall id: byte ensures ParseId(s.stack[n - 1]) == Some(id) <==> s.stack[n - 1] == Minimal(id) {
        ParseIdMinimal(s.stack[n - 1], id);
      }
    }
  }

  // ---------- conditionals ----------

  /** What is switched off does nothing, conditionals apart. */
  lemma SkippedDoesNothing(ops: Opcodes, lim: Limits, i: Instr, conds: seq<bool>, s: Shared)
    requires s.Tables() && !Executing(conds) && i !in {Op(OP_IF), Op(OP_NOTIF), Op(OP_ELSE), Op(OP_ENDIF)}
    ensures StepOne(ops, lim, i, conds, s) == Go(conds, s)
  {
    assert s.(stack := s.stack, alt := s.alt) == s;
  }

  /** A script fails that pushes more than an element may hold, that marks a signature position within a function, or
      that ends inside a conditional. */
  lemma RunRefused(ops: Opcodes, lim: Limits, script: bytes, conds: seq<bool>, within: bool, s: Shared)
    requires s.Tables()
    requires script == [] ==> conds != []
    requires script != [] && ParseOne(script).Some? ==>
               var i := ParseOne(script).value.0;
               (i.Data? && |i.data| > lim.element) || (within && Executing(conds) && i == Op(0xab))
    ensures RunScript(ops, lim, script, conds, within, s).kind == Fail
  {
    hide StepOne, ParseOne;
  }

  /** One or the other of two pushes, by the item on top. */
  function Choice(conditional: byte): bytes { [conditional, 0x51, OP_ELSE, 0x52, OP_ENDIF] }

  lemma ChoiceStep(ops: Opcodes, lim: Limits, script: bytes, i: Instr, conds: seq<bool>, s: Shared, c: seq<bool>,
                   s2: Shared)
    requires script != [] && ParseOne(script) == Some((i, script[1..])) && s.Tables() && !Refused(lim, i, conds, false)
    requires StepOne(ops, lim, i, conds, s.(executed := s.executed + 1)) == Go(c, s2) && InLimits(lim, s2)
    ensures RunScript(ops, lim, script, conds, false, s) == RunScript(ops, lim, script[1..], c, false, s2)
  {
    hide TotalSize, StepOne;
  }

  /** The conditional and the first push. */
  lemma FirstBranch(ops: Opcodes, lim: Limits, conditional: byte, top: bytes, s: Shared)
    requires conditional in {OP_IF, OP_NOTIF} && s.Tables() && s.stack == [top] && s.alt == []
    requires s.count + 1 <= lim.entries && s.stored + 1 <= lim.total
    ensures var first := IsTrue(top) == (conditional == OP_IF);
            RunScript(ops, lim, Choice(conditional), [], false, s) ==
            RunScript(ops, lim, [OP_ELSE, 0x52, OP_ENDIF], [first], false,
                      s.(stack := if first then [[1]] else [], executed := s.executed + 2))
  {
    hide TotalSize, RunScript, Define, Invoked;
    var first := IsTrue(top) == (conditional == OP_IF);
    var p := Choice(conditional);
    OneSize([1]);
    assert [top][..0] == [] && [] + [first] == [first];
    var s1 := s.(stack := [], executed := s.executed + 1);
    assert p[1..] == [0x51, OP_ELSE, 0x52, OP_ENDIF] && p[1..][1..] == [OP_ELSE, 0x52, OP_ENDIF];
    ChoiceStep(ops, lim, p, Op(conditional), [], s, [first], s1);
    assert [] + [[1]] == [[1]];
    assert Executing([first]) == first by { assert [first][0] == first; }
    ChoiceStep(ops, lim, p[1..], Small(1), [first], s1, [first],
               s1.(stack := if first then [[1]] else [], executed := s.executed + 2));
  }

  /** The other push, when the first was not made. */
  lemma SecondBranch(ops: Opcodes, lim: Limits, first: bool, s: Shared)
    requires s.Tables() && s.stack == (if first then [[1]] else []) && s.alt == []
    requires s.count + 1 <= lim.entries && s.stored + 1 <= lim.total
    ensures RunScript(ops, lim, [OP_ELSE, 0x52, OP_ENDIF], [first], false, s) ==
            Outcome(Done, s.(stack := if first then [[1]] else [[2]], executed := s.executed + 3))
  {
    hide TotalSize, RunScript, Define, Invoked;
    OneSize([1]);
    OneSize([2]);
    var p := [OP_ELSE, 0x52, OP_ENDIF];
    var s1 := s.(executed := s.executed + 1);
    assert p[1..] == [0x52, OP_ENDIF] && p[1..][1..] == [OP_ENDIF] && p[1..][1..][1..] == [];
    assert [first][..0] + [!first] == [!first] && [!first][..0] == [];
    ChoiceStep(ops, lim, p, Op(OP_ELSE), [first], s, [!first], s1);
    assert Executing([!first]) == !first by { assert [!first][0] == !first; }
    assert [] + [[2]] == [[2]];
    var s2 := s1.(stack := if first then [[1]] else [[2]], executed := s.executed + 2);
    ChoiceStep(ops, lim, p[1..], Small(2), [!first], s1, [!first], s2);
    ChoiceStep(ops, lim, p[1..][1..], Op(OP_ENDIF), [!first], s2, [], s2.(executed := s.executed + 3));
    EmptyScript(ops, lim, p[1..][1..][1..], s2.(executed := s.executed + 3));
  }

  /** OP_IF runs its first branch exactly for a true item, OP_NOTIF exactly for a false one. */
  lemma BranchesChosen(ops: Opcodes, lim: Limits, conditional: byte, top: bytes, budget: nat)
    requires conditional in {OP_IF, OP_NOTIF} && lim.entries >= 1 && lim.total >= 1
    ensures var r := RunScript(ops, lim, Choice(conditional), [], false, Blank([top], budget));
            r.kind == Done && r.s.stack == [if IsTrue(top) == (conditional == OP_IF) then [1] else [2]]
  {
    hide RunScript, Choice;
    var first, s := IsTrue(top) == (conditional == OP_IF), Blank([top], budget);
    FirstBranch(ops, lim, conditional, top, s);
    SecondBranch(ops, lim, first, s.(stack := if first then [[1]] else [], executed := 2));
  }

  lemma EmptyScript(ops: Opcodes, lim: Limits, script: bytes, s: Shared)
    requires script == [] && s.Tables()
    ensures RunScript(ops, lim, script, [], false, s) == Outcome(Done, s)
  {
  }

  // ---------- the bound is exact ----------

  /** What the bound promises of every script, stack and budget. */
  ghost predicate WorkBounded(lim: Limits) {
    forall ops: Opcodes, script: bytes, stack: seq<bytes>, budget: nat :: Fits(lim.element, stack) ==>
      RunScript(ops, lim, script, [], false, Blank(stack, budget)).s.executed <= |script| + MAX_BODY_BYTES
  }

  const OP_NOP: byte := 0x61

  /** An interpreter whose other opcodes do nothing and in which no byte ends a script. */
  function Idle(): Opcodes { Opcodes((code, st, al) => Some((st, al)), b => None) }

  function Nops(n: nat): bytes { seq(n, _ => OP_NOP) }

  lemma {:induction false} NopsRun(lim: Limits, n: nat, s: Shared)
    requires s.Tables() && InLimits(lim, s) && Fits(lim.element, s.stack) && Fits(lim.element, s.alt)
    ensures RunScript(Idle(), lim, Nops(n), [], true, s) == Outcome(Done, s.(executed := s.executed + n))
    decreases n
  {
    hide TotalSize, Fits, Define, Invoked;
    if n > 0 {
      assert Nops(n)[1..] == Nops(n - 1) && ParseOne(Nops(n)) == Some((Op(OP_NOP), Nops(n - 1)));
      var s1 := s.(executed := s.executed + 1);
      assert s1.(stack := s1.stack, alt := s1.alt) == s1;
      assert StepOne(Idle(), lim, Op(OP_NOP), [], s1) == Go([], s1);
      NopsRun(lim, n - 1, s1);
    }
  }

  /** Define the body on the stack as function zero, and invoke it. */
  const DEFINE_AND_INVOKE: bytes := [0x00, OP_DEFINE, 0x00, OP_INVOKE]

  /** Limits that leave room for one body past the allowance. */
  predicate Roomy(lim: Limits) { lim.element > MAX_BODY_BYTES && lim.entries >= 2 && lim.total > MAX_BODY_BYTES }

  function Escaping(): bytes { Nops(MAX_BODY_BYTES + 1) }

  /** The state after the body is defined and its identifier pushed. */
  function Armed(lim: Limits): Shared {
    var s := Blank([Escaping()], (MAX_BODY_BYTES + 1) * lim.copyCost);
    s.(stack := [[]], definitions := s.definitions[0 := Some(Escaping())], count := 1, stored := MAX_BODY_BYTES + 1,
       executed := 3)
  }

  lemma OneSize(b: bytes)
    ensures TotalSize([]) == 0 && TotalSize([b]) == |b|
  {
    assert [b][..0] == [];
  }

  lemma TwoSizes(a: bytes, b: bytes)
    ensures TotalSize([a, b]) == |a| + |b|
  {
    assert [a, b][..1] == [a];
    OneSize(a);
  }

  lemma ReachesArmed(lim: Limits)
    requires Roomy(lim)
    ensures var s := Blank([Escaping()], (MAX_BODY_BYTES + 1) * lim.copyCost);
            RunScript(Idle(), lim, DEFINE_AND_INVOKE, [], false, s)
              == RunScript(Idle(), lim, [OP_INVOKE], [], false, Armed(lim))
  {
    hide TotalSize, Nops, Inactive, Invoked;
    var body, d := Escaping(), DEFINE_AND_INVOKE;
    NopsLength(MAX_BODY_BYTES + 1);
    var s := Blank([body], (MAX_BODY_BYTES + 1) * lim.copyCost);
    OneSize(body);
    TwoSizes(body, []);
    OneSize([]);
    var s1, s2 := s.(stack := [body, []], executed := 1), Armed(lim).(stack := [], executed := 2);
    assert d[1..] == [OP_DEFINE, 0x00, OP_INVOKE] && ParseOne(d) == Some((Data([]), d[1..]));
    PushEmpty(lim, s);
    assert [body] + [[]] == [body, []];
    OneStep(lim, d, Data([]), d[1..], s, s1);
    assert d[1..][1..] == d[2..] && ParseOne(d[1..]) == Some((Op(OP_DEFINE), d[2..]));
    DefineBody(s1.(executed := 2), body);
    OneStep(lim, d[1..], Op(OP_DEFINE), d[2..], s1, s2);
    assert d[2..][1..] == [OP_INVOKE] && ParseOne(d[2..]) == Some((Data([]), [OP_INVOKE]));
    PushEmpty(lim, s2);
    OneStep(lim, d[2..], Data([]), [OP_INVOKE], s2, Armed(lim));
  }

  lemma OneStep(lim: Limits, script: bytes, i: Instr, rest: bytes, s: Shared, s2: Shared)
    requires script != [] && ParseOne(script) == Some((i, rest)) && s.Tables() && !Refused(lim, i, [], false)
    requires StepOne(Idle(), lim, i, [], s.(executed := s.executed + 1)) == Go([], s2) && InLimits(lim, s2)
    ensures RunScript(Idle(), lim, script, [], false, s) == RunScript(Idle(), lim, rest, [], false, s2)
  {
    hide TotalSize, StepOne;
  }

  lemma PushEmpty(lim: Limits, s: Shared)
    requires s.Tables()
    ensures var s1 := s.(executed := s.executed + 1);
            StepOne(Idle(), lim, Data([]), [], s1) == Go([], s1.(stack := s.stack + [[]]))
  {
    hide TotalSize, RunScript;
  }

  lemma DefineBody(s: Shared, body: bytes)
    requires s.Tables() && s.stack == [body, []] && s.definitions[0].None?
    ensures Define(s) == Some(s.(stack := [], definitions := s.definitions[0 := Some(body)], count := s.count + 1,
                                 stored := s.stored + |body|))
  {
    assert s.stack[..0] == [];
  }

  lemma ArmedInvokes(lim: Limits)
    requires Roomy(lim)
    ensures RunScript(Idle(), lim, [OP_INVOKE], [], false, Armed(lim)).s.executed == 4 + MAX_BODY_BYTES + 1
  {
    hide TotalSize, Nops, Inactive, Define;
    var s, body := Armed(lim).(executed := 4), Escaping();
    assert |body| == MAX_BODY_BYTES + 1 by { NopsLength(MAX_BODY_BYTES + 1); }
    AllowanceEscaped();
    var s2 := s.(stack := [], invoked := MAX_BODY_BYTES + 1, budget := 0);
    var ids: seq<bytes> := [[]];
    assert ids[..0] == [];
    assert ParseId([]) == Some(0);
    assert Invoked(lim, s) == Some((0, body, s2));
    var on := s2.(active := s2.active[0 := true]);
    OneSize([]);
    NopsRun(lim, MAX_BODY_BYTES + 1, on);
    assert ParseOne([OP_INVOKE]) == Some((Op(OP_INVOKE), []));
    var r := Leave(RunScript(Idle(), lim, body, [], true, on), 0);
    assert StepOne(Idle(), lim, Op(OP_INVOKE), [], s) == Go([], r.s);
  }

  lemma NopsLength(n: nat)
    ensures |Nops(n)| == n
  {
  }

  /** A run past the bound: one body of one byte more than the allowance. */
  lemma WorkEscapes(lim: Limits)
    requires Roomy(lim)
    ensures var stack := [Escaping()];
            && Fits(lim.element, stack)
            && RunScript(Idle(), lim, DEFINE_AND_INVOKE, [], false,
                         Blank(stack, (MAX_BODY_BYTES + 1) * lim.copyCost)).s.executed
               == |DEFINE_AND_INVOKE| + MAX_BODY_BYTES + 1
  {
    hide RunScript, Nops;
    NopsLength(MAX_BODY_BYTES + 1);
    ReachesArmed(lim);
    ArmedInvokes(lim);
  }

  /** Where two entries and one body fit, the bound holds of every run exactly when no element exceeds the allowance. */
  lemma WorkBoundExact(lim: Limits)
    requires lim.element >= 1 && lim.entries >= 2 && lim.total > MAX_BODY_BYTES
    ensures WorkBounded(lim) <==> lim.element <= MAX_BODY_BYTES
  {
    hide RunScript, Nops, Fits;
    if lim.element <= MAX_BODY_BYTES {
      forall ops: Opcodes, script: bytes, stack: seq<bytes>, budget: nat | Fits(lim.element, stack)
        ensures RunScript(ops, lim, script, [], false, Blank(stack, budget)).s.executed <= |script| + MAX_BODY_BYTES
      {
        NestedWorkBounded(ops, lim, script, stack, budget);
      }
    } else {
      WorkEscapes(lim);
    }
  }

  // ---------- the interpreter ----------

  /** The shared machine state, changed in place by nested runs. */
  class Interpreter {
    const ops: Opcodes
    const lim: Limits
    var stack: seq<bytes>
    var alt: seq<bytes>
    var definitions: seq<Option<bytes>>
    var active: seq<bool>
    var definitionCount: nat
    var storedBodyBytes: nat
    var invokedBodyBytes: nat
    var budget: nat
    ghost var executed: nat

    ghost function Now(): Shared
      reads this
    {
      Shared(stack, alt, definitions, active, definitionCount, storedBodyBytes, invokedBodyBytes, budget, executed)
    }

    constructor (ops: Opcodes, lim: Limits, stack: seq<bytes>, budget: nat)
      ensures Now() == Blank(stack, budget) && this.ops == ops && this.lim == lim
    {
      this.ops, this.lim, this.stack, this.budget := ops, lim, stack, budget;
      alt, definitions, active := [], seq(256, _ => None), seq(256, _ => false);
      definitionCount, storedBodyBytes, invokedBodyBytes, executed := 0, 0, 0, 0;
    }

    method DefineFunction() returns (ok: bool)
      requires Now().Tables()
      modifies this
      ensures ok <==> Define(old(Now())).Some?
      ensures Now() == if ok then Define(old(Now())).value else old(Now()).(stack := stack)
      ensures active == old(active)
              && definitions == if ok then Define(old(Now())).value.definitions else old(definitions)
    {
      if |stack| < 2 {
        return false;
      }
      var id := ParseId(stack[|stack| - 1]);
      if id.None? {
        stack := stack[..|stack| - 1];
        return false;
      }
      if definitions[id.value].Some? {
        stack := stack[..|stack| - 1];
        return false;
      }
      var body := stack[|stack| - 2];
      stack := stack[..|stack| - 2];
      definitionCount := definitionCount + 1;
      storedBodyBytes := storedBodyBytes + |body|;
      definitions := definitions[id.value := Some(body)];
      ok := true;
    }

    /** The step the specification takes for an executed OP_INVOKE. */
    ghost function InvokeStep(): Next
      requires Now().Tables()
      reads this
    {
      StepOne(ops, lim, Op(OP_INVOKE), [], Now())
    }

    method InvokeFunction() returns (kind: Kind)
      requires Now().Tables()
      modifies this
      ensures var n := old(InvokeStep());
              && kind == (if n.Stop? then n.o.kind else Done)
              && executed == (if n.Stop? then n.o.s else n.s).executed
              && (kind != Fail ==> Now() == if n.Stop? then n.o.s else n.s)
      ensures active == old(active) && Now().Tables()
      decreases Inactive(active), 0, 0
    {
      if |stack| < 1 {
        return Fail;
      }
      var id := ParseId(stack[|stack| - 1]);
      ghost var before := Now();
      stack := stack[..|stack| - 1];
      if id.None? {
        return Fail;
      }
      if definitions[id.value].None? || active[id.value] {
        return Fail;
      }
      var body := definitions[id.value].value;
      if |body| >= U64 || OverAllowance(invokedBodyBytes, |body|) {
        return Fail;
      }
      invokedBodyBytes := (invokedBodyBytes + |body|) % U64;
      if |body| * lim.copyCost > budget {
        return Fail;
      }
      budget := budget - |body| * lim.copyCost;
      assert Invoked(lim, before) == Some((id.value, body, Now()));
      var scanned := ops.scan(body);
      if scanned.Some? {
        return if scanned.value then Success else Fail;
      }
      ActivateOne(active, id.value);
      active := active[id.value := true];
      kind := EvalScript(body, true);
      active := active[id.value := false];
      assert active == old(active);
    }

    method RunPlain(i: Instr, conds: seq<bool>) returns (next: Option<seq<bool>>)
      modifies this
      ensures var r := Plain(ops, lim, i, conds, old(stack), old(alt));
              && (next.None? <==> r.None?)
              && (r.Some? ==> next.value == r.value.0 && Now() == old(Now()).(stack := r.value.1, alt := r.value.2))
              && (r.None? ==> Now() == old(Now()))
    {
      var r := Plain(ops, lim, i, conds, stack, alt);
      if r.None? {
        return None;
      }
      stack, alt := r.value.1, r.value.2;
      next := Some(r.value.0);
    }

    /** The guarded subtractions, which stay within machine width, decide the sums. */
    method SizesAllowed() returns (ok: bool)
      ensures ok <==>
              && definitionCount + |stack| + |alt| <= lim.entries
              && storedBodyBytes + TotalSize(stack) + TotalSize(alt) <= lim.total
    {
      if definitionCount > lim.entries || |stack| + |alt| > lim.entries - definitionCount {
        return false;
      }
      var held := TotalSize(stack) + TotalSize(alt);
      ok := !(storedBodyBytes > lim.total || held > lim.total - storedBodyBytes);
    }

    /** One executed or skipped instruction. */
    method RunOne(i: Instr, conds: seq<bool>) returns (kind: Kind, next: seq<bool>)
      requires Now().Tables()
      modifies this
      ensures var n := old(StepOne(ops, lim, i, conds, Now()));
              && kind == (if n.Stop? then n.o.kind else Done)
              && executed == (if n.Stop? then n.o.s else n.s).executed
              && (kind != Fail ==> Now() == if n.Stop? then n.o.s else n.s) && (n.Go? ==> next == n.conds)
      ensures active == old(active) && Now().Tables()
      decreases Inactive(active), 0, 1
    {
      hide Plain, Define, Invoked, RunScript;
      kind, next := Done, conds;
      if Executing(conds) && i == Op(OP_DEFINE) {
        var ok := DefineFunction();
        kind := if ok then Done else Fail;
      } else if Executing(conds) && i == Op(OP_INVOKE) {
        kind := InvokeFunction();
        SameInvoke(ops, lim, i, conds, old(Now()));
      } else {
        var r := RunPlain(i, conds);
        if r.None? {
          return Fail, conds;
        }
        next := r.value;
      }
    }

    /** `EvalTapscriptV2Impl`: its own conditions, everything else shared with the caller. */
    method EvalScript(script: bytes, within: bool) returns (kind: Kind)
      requires Now().Tables()
      modifies this
      ensures var r := old(RunScript(ops, lim, script, [], within, Now()));
              && kind == r.kind && executed == r.s.executed && (kind != Fail ==> Now() == r.s)
      ensures active == old(active) && Now().Tables()
      decreases Inactive(active), |script|, 2
    {
      hide StepOne, ParseOne, Refused, Executing, TotalSize;
      var pc: bytes, conds: seq<bool> := script, [];
      ghost var goal := RunScript(ops, lim, script, [], within, Now());
      while pc != []
        invariant Now().Tables() && active == old(active) && |pc| <= |script|
        invariant goal == RunScript(ops, lim, pc, conds, within, Now())
        decreases |pc|
      {
        var parsed := ParseOne(pc);
        if parsed.None? {
          return Fail;
        }
        var (i, rest) := parsed.value;
        executed := executed + 1;
        if Refused(lim, i, conds, within) {
          return Fail;
        }
        var next: seq<bool>;
        kind, next := RunOne(i, conds);
        if kind != Done {
          return;
        }
        conds := next;
        var fits := SizesAllowed();
        if !fits {
          return Fail;
        }
        pc := rest;
      }
      kind := if conds == [] then Done else Fail;
    }
  }

  /** An executed invocation does not depend on the enclosing conditions, which it keeps. */
  lemma SameInvoke(ops: Opcodes, lim: Limits, i: Instr, conds: seq<bool>, s: Shared)
    requires s.Tables() && i == Op(OP_INVOKE) && Executing(conds)
    ensures var n, m := StepOne(ops, lim, i, conds, s), StepOne(ops, lim, Op(OP_INVOKE), [], s);
            && n.Stop? == m.Stop? && (n.Stop? ==> n.o == m.o) && (n.Go? ==> n.s == m.s && n.conds == conds)
  {
    hide Invoked, RunScript, Define;
    assert Executing([]);
  }
}
