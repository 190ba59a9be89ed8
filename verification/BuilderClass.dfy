// The `Builder` class: code bytes and a list of names, changed call by call. The ghost cursor records which
// program the calls so far amount to.
module BuilderClass {
  import opened Bytes
  import opened Script
  import opened Building
  import opened Calls

  /** A program under construction, possibly inside open branches. */
  datatype Cursor = Cursor(prog: Prog, entry: seq<Name>, within: Enclosing) {
    function Names(): seq<Name> { NamesAfter(prog, entry) }

    function Code(): seq<Instr> { Lead(within) + Emit(prog, entry) }

    function Add(c: Cmd): Cursor { this.(prog := Then(prog, c)) }

    ghost predicate Valid() {
      && Legal(prog, entry)
      && match within
         case TopLevel => true
         case InYes(up) => up.Valid() && up.Names() != [] && entry == Pop(up.Names(), 1)
         case InNo(up, yes) => up.Valid() && up.Names() != [] && entry == Pop(up.Names(), 1) && Legal(yes, entry)
    }
  }

  datatype Enclosing = TopLevel | InYes(up: Cursor) | InNo(up: Cursor, yes: Prog)

  function Lead(e: Enclosing): seq<Instr> {
    match e
    case TopLevel => []
    case InYes(up) => up.Code() + [Op(OP_IF)]
    case InNo(up, yes) => up.Code() + [Op(OP_IF)] + Emit(yes, Pop(up.Names(), 1)) + [Op(OP_ELSE)]
  }

  lemma AddExtends(c: Cursor, cmd: Cmd)
    ensures c.Add(cmd).Code() == c.Code() + EmitCmd(cmd, c.Names())
    ensures Assemble(c.Add(cmd).Code()) == Assemble(c.Code()) + Assemble(EmitCmd(cmd, c.Names()))
    ensures c.Add(cmd).Names() == NamesCmd(cmd, c.Names())
  {
    var a, b := Lead(c.within) + Emit(c.prog, c.entry), EmitCmd(cmd, c.Names());
    assert c.Add(cmd).Code() == a + b;
    AssembleAppend(a, b);
  }

  lemma AssembleGet(names: seq<Name>, name: Name)
    requires name in names
    ensures Assemble(EmitCmd(Get(name), names)) ==
            Encode(NumberInstr(|names| - 1 - Position(names, name))) + [OP_PICK]
  {
    hide NumberInstr, PushBytes;
    var depth := NumberInstr(|names| - 1 - Position(names, name));
    AssembleAppend([depth], [Instr.Op(OP_PICK)]);
    AssembleOne(depth);
    AssembleOne(Instr.Op(OP_PICK));
    assert EmitCmd(Get(name), names) == [depth] + [Instr.Op(OP_PICK)];
  }

  lemma JustOpened(c: Cursor)
    requires c.prog == Nil
    ensures c.Code() == Lead(c.within)
  {
    assert Lead(c.within) + [] == Lead(c.within);
  }

  lemma Turned(up: Cursor, yes: Prog)
    ensures var entry := Pop(up.Names(), 1);
            Lead(InNo(up, yes)) == Cursor(yes, entry, InYes(up)).Code() + [Instr.Op(OP_ELSE)]
  {
    var entry := Pop(up.Names(), 1);
    var lead := Lead(InYes(up));
    assert lead == up.Code() + [Instr.Op(OP_IF)];
    assert Cursor(yes, entry, InYes(up)).Code() == lead + Emit(yes, entry);
    assert Lead(InNo(up, yes)) == lead + Emit(yes, entry) + [Instr.Op(OP_ELSE)];
  }

  lemma ClosingValid(c: Cursor)
    requires c.Valid() && c.within.InNo? && c.Names() == NamesAfter(c.within.yes, c.entry)
    ensures var r := c.within.up.Add(Branch(c.within.yes, c.prog)); r.Valid() && r.Names() == c.Names()
  {
    var up := c.within.up;
    assert up.Valid();
    AddExtends(up, Branch(c.within.yes, c.prog));
    assert LegalCmd(Branch(c.within.yes, c.prog), up.Names());
  }

  lemma Closing(up: Cursor, yes: Prog, no: Prog)
    ensures var entry := Pop(up.Names(), 1);
            up.Code() + EmitCmd(Branch(yes, no), up.Names()) ==
            Cursor(no, entry, InNo(up, yes)).Code() + [Instr.Op(OP_ENDIF)]
  {
    var entry := Pop(up.Names(), 1);
    var a, y, n := up.Code(), Emit(yes, entry), Emit(no, entry);
    calc {
      a + ([Instr.Op(OP_IF)] + y + [Instr.Op(OP_ELSE)] + n + [Instr.Op(OP_ENDIF)]);
      ((((a + [Instr.Op(OP_IF)]) + y) + [Instr.Op(OP_ELSE)]) + n) + [Instr.Op(OP_ENDIF)];
    }
  }

  /** The greatest index at which a name stands. */
  method LastIndex(names: seq<Name>, name: Name) returns (position: nat)
    requires name in names
    ensures position == Position(names, name)
  {
    position := 0;
    var index := 0;
    while index < |names|
      invariant 0 <= index <= |names|
      invariant name in names[..index] ==> position < index && names[position] == name
      invariant forall j :: position < j < index ==> names[j] != name
    {
      if names[index] == name {
        position := index;
      }
      index := index + 1;
    }
    assert names[..index] == names;
  }

  class Builder {
    var code: bytes
    var names: seq<Name>
    ghost var at: Cursor

    ghost predicate Valid()
      reads this
    {
      at.Valid() && names == at.Names() && code == Assemble(at.Code())
    }

    constructor (names: seq<Name>)
      ensures Valid() && this.names == names && code == []
      ensures at == Cursor(Nil, names, TopLevel)
    {
      this.code := [];
      this.names := names;
      at := Cursor(Nil, names, TopLevel);
    }

    method Push(value: bytes)
      requires Valid()
      modifies this
      ensures Valid() && names == old(names) + [Anon] && at == old(at).Add(Cmd.Push(value))
    {
      AddExtends(at, Cmd.Push(value));
      AssembleOne(Data(value));
      code := code + PushBytes(value);
      names := names + [Anon];
      at := at.Add(Cmd.Push(value));
    }

    method Number(value: nat)
      requires Valid()
      modifies this
      ensures Valid() && names == old(names) + [Anon] && at == old(at).Add(Cmd.Number(value))
    {
      AddExtends(at, Cmd.Number(value));
      AssembleOne(NumberInstr(value));
      code := code + Encode(NumberInstr(value));
      names := names + [Anon];
      at := at.Add(Cmd.Number(value));
    }

    method Op(opcode: byte, inputs: nat, outputs: nat)
      requires Valid() && Arity(opcode) == Some((inputs, outputs)) && inputs <= |names|
      modifies this
      ensures Valid() && names == old(names)[..|old(names)| - inputs] + Anons(outputs)
      ensures at == old(at).Add(Do(opcode, inputs, outputs))
    {
      AddExtends(at, Do(opcode, inputs, outputs));
      AssembleOne(Instr.Op(opcode));
      names := names[..|names| - inputs];
      code := code + [opcode];
      names := names + Anons(outputs);
      at := at.Add(Do(opcode, inputs, outputs));
    }

    method SetName(name: Name)
      requires Valid() && names != []
      modifies this
      ensures Valid() && names == old(names)[..|old(names)| - 1] + [name] && at == old(at).Add(Rename(name))
    {
      AddExtends(at, Rename(name));
      assert Assemble([]) == [];
      assert code + [] == code;
      names := names[|names| - 1 := name];
      at := at.Add(Rename(name));
    }

    method Get(name: Name)
      requires Valid() && name in names
      modifies this
      ensures Valid() && names == old(names) + [Anon] && at == old(at).Add(Cmd.Get(name))
    {
      var position := LastIndex(names, name);
      var depth := NumberInstr(|names| - 1 - position);
      AddExtends(at, Cmd.Get(name));
      AssembleGet(names, name);
      code := code + Encode(depth);
      code := code + [OP_PICK];
      names := names + [Anon];
      at := at.Add(Cmd.Get(name));
    }

    method Slice(name: Name, start: nat, length: nat)
      requires Valid() && name in names
      modifies this
      ensures Valid() && names == old(names) + [Anon]
      ensures at == old(at).(prog := SliceCalls(old(at).prog, name, start, length))
    {
      Get(name);
      Number(start);
      Number(length);
      Op(OP_SUBSTR, 3, 1);
    }

    method EqualSlice(name: Name, start: nat, expected: bytes)
      requires Valid() && name in names
      modifies this
      ensures Valid() && names == old(names)
      ensures at == old(at).(prog := EqualSliceCalls(old(at).prog, name, start, expected))
    {
      Slice(name, start, |expected|);
      Push(expected);
      Op(OP_EQUALVERIFY, 2, 0);
    }

    method RequireSize(name: Name, length: nat)
      requires Valid() && name in names
      modifies this
      ensures Valid() && names == old(names)
      ensures at == old(at).(prog := RequireSizeCalls(old(at).prog, name, length))
    {
      Get(name);
      Op(OP_SIZE, 0, 1);
      Number(length);
      Op(OP_NUMEQUALVERIFY, 2, 0);
      Op(OP_DROP, 1, 0);
    }

    method Cat()
      requires Valid() && |names| >= 2
      modifies this
      ensures Valid() && names == old(names)[..|old(names)| - 2] + [Anon]
      ensures at == old(at).(prog := Then2(old(at).prog, OP_CAT))
    {
      Op(OP_CAT, 2, 1);
      assert Anons(1) == [Anon];
    }

    method FixedWidth(width: nat)
      requires Valid() && names != []
      modifies this
      ensures Valid() && names == old(names)[..|old(names)| - 1] + [Anon]
      ensures at == old(at).(prog := FixedWidthCalls(old(at).prog, width))
    {
      Push(Zeros(width));
      Cat();
      Number(width);
      Op(OP_LEFT, 2, 1);
    }

    method Tx(selector: bytes)
      requires Valid()
      modifies this
      ensures Valid() && names == old(names) + [Anon]
      ensures at == old(at).(prog := TxCalls(old(at).prog, selector))
    {
      Push(selector);
      Op(OP_TX, 1, 1);
    }

    /** Drop every tracked item and nothing below. */
    method FinishPrefix() returns (result: bytes)
      requires Valid()
      modifies this
      ensures Valid() && names == [] && result == code
      ensures at == old(at).(prog := DropCalls(old(at).prog, |old(names)|))
    {
      while names != []
        invariant Valid() && |names| <= |old(names)|
        invariant at == old(at).(prog := DropCalls(old(at).prog, |old(names)| - |names|))
        decreases |names|
      {
        Op(OP_DROP, 1, 0);
      }
      result := code;
    }

    method Finish() returns (result: bytes)
      requires Valid()
      modifies this
      ensures Valid() && names == [Anon] && result == code
      ensures at == old(at).(prog := Then(DropCalls(old(at).prog, |old(names)|), Cmd.Number(1)))
    {
      var dropped := FinishPrefix();
      Number(1);
      result := code;
    }

    /** The first part of `branch`: pop the condition and start the yes side. */
    method BeginBranch() returns (before: seq<Name>)
      requires Valid() && names != []
      modifies this
      ensures Valid() && names == before == old(names)[..|old(names)| - 1]
      ensures at == Cursor(Nil, before, InYes(old(at)))
    {
      AssembleAppend(at.Code(), [Instr.Op(OP_IF)]);
      AssembleOne(Instr.Op(OP_IF));
      names := names[..|names| - 1];
      code := code + [OP_IF];
      before := names;
      at := Cursor(Nil, before, InYes(at));
      JustOpened(at);
    }

    /** The middle part of `branch`: remember the names the yes side left and start the no side. */
    method ElseBranch(before: seq<Name>) returns (after: seq<Name>)
      requires Valid() && at.within.InYes? && before == at.entry
      modifies this
      ensures Valid() && after == old(names) && names == before
      ensures at == Cursor(Nil, before, InNo(old(at).within.up, old(at).prog))
    {
      AssembleAppend(at.Code(), [Instr.Op(OP_ELSE)]);
      AssembleOne(Instr.Op(OP_ELSE));
      after := names;
      code := code + [OP_ELSE];
      names := before;
      var up := at.within.up;
      Turned(up, at.prog);
      at := Cursor(Nil, before, InNo(up, at.prog));
      JustOpened(at);
    }

    /** The last part of `branch`: both sides must have left the same names. */
    method EndBranch(after: seq<Name>)
      requires Valid() && at.within.InNo? && names == after == NamesAfter(at.within.yes, at.entry)
      modifies this
      ensures Valid() && names == old(names)
      ensures at == old(at).within.up.Add(Branch(old(at).within.yes, old(at).prog))
    {
      var up, yes, no := at.within.up, at.within.yes, at.prog;
      AssembleAppend(at.Code(), [Instr.Op(OP_ENDIF)]);
      AssembleOne(Instr.Op(OP_ENDIF));
      AddExtends(up, Branch(yes, no));
      Closing(up, yes, no);
      ClosingValid(at);
      code := code + [OP_ENDIF];
      at := up.Add(Branch(yes, no));
    }
  }
}
