// The executor of the VM: it visits instructions, and calls itself for each call. It does what the small-step machine
// does.
module Executor {
  import opened Isa
  import opened Jumps
  import opened Machine

  // How a visit ends: with the next instruction, by an exception, by leaving the function, or for lack of fuel
  datatype Visited = Went | Threw(e: Error) | Left | Exhausted

  class Executor {
    const program: Program
    // the current frame
    var func: nat
    var ircode: Code
    var cursor: nat
    var upperLabelID: nat
    var registers: seq<u64>
    // shared by all the frames
    var parameters: seq<u64>
    var retval: u64
    var unwindRaisedError: bool
    var raisedError: u64
    var raisedErrorAtomid: nat
    var trace: seq<Event>
    // the frames which wait on the native stack
    ghost var callers: seq<Suspended>

    ghost predicate Valid()
      reads this
    {
      func < |program.funcs| && ircode == program.funcs[func]
    }

    // The machine about to visit the instruction at 'pc'
    ghost function Now(pc: nat): State
      reads this
    {
      State(Activation(func, pc, upperLabelID, registers), callers, parameters, retval, unwindRaisedError, raisedError,
            raisedErrorAtomid, trace, Running)
    }

    constructor (p: Program, f: nat, regs: seq<u64>)
      requires f < |p.funcs|
      ensures Valid() && program == p && cursor == 1 && callers == []
      ensures Now(1) == State(Activation(f, 1, 0, regs), [], [], 0, false, 0, 0, [], Running)
    {
      program, func, ircode, cursor, upperLabelID, registers := p, f, p.funcs[f], 1, 0, regs;
      parameters, retval, unwindRaisedError, raisedError, raisedErrorAtomid, trace := [], 0, false, 0, 0, [];
      callers := [];
    }

    // The cursor is moved onto the label, to be moved further by the loop over instructions
    method GotoLabel(id: nat) returns (r: Visited)
      requires Valid() && cursor < |ircode|
      modifies this`cursor, this`upperLabelID
      ensures r == Went || r == Threw(InvalidLabel)
      ensures var s := JumpTo(ircode, old(Now(cursor)), registers, id);
        if r == Went then Now(cursor + 1) == s else s == Fail(old(Now(cursor)), InvalidLabel)
    {
      var found, target;
      if id > upperLabelID {
        found, target := JumpToLabelForward(ircode, cursor, id);
      } else {
        found, target := JumpToLabelBackward(ircode, cursor, id);
      }
      if !found {
        return Threw(InvalidLabel);
      }
      cursor := target;
      upperLabelID := id;
      return Went;
    }

    method ReturnFromCurrentFunc(value: u64)
      modifies this`retval, this`cursor
      ensures retval == value && cursor == |ircode|
    {
      retval := value;
      cursor := |ircode|;
    }

    method SetRegister(lvid: nat, value: u64)
      requires lvid < |registers|
      modifies this`registers
      ensures registers == old(registers)[lvid := value]
    {
      registers := registers[lvid := value];
    }

    // Instructions which go on with the next one
    method VisitPlain(i: Instr) returns (r: Visited)
      requires IsPlain(i) && MaxLvid(i) < |registers|
      modifies this`registers, this`parameters, this`trace
      ensures r == Went || r.Threw?
      ensures var s := Plain(program, i, old(Now(cursor)));
        if r == Went then Now(cursor + 1) == s else s == Fail(old(Now(cursor)), r.e)
    {
      r := Went;
      match i {
        case Nop =>
        case ScopeBegin =>
        case ScopeEnd =>
        case Stackalloc(_) =>
        case StoreConst(lvid, value) => registers := registers[lvid := value];
        case Store(lvid, source) => registers := registers[lvid := registers[source]];
        case Binary(op, lvid, lhs, rhs) =>
          if op == Div && registers[rhs] == 0 {
            return Threw(DivideByZero);
          }
          registers := registers[lvid := Arith(op, registers[lhs], registers[rhs]).value];
        case Negation(lvid, lhs) => registers := registers[lvid := if registers[lhs] == 0 then 1 else 0];
        case Fieldget(lvid, self, field) =>
          var object_ := registers[self];
          if object_ == 0 || object_ !in program.heap || field >= |program.heap[object_]| {
            return Threw(UnknownPointer);
          }
          registers := registers[lvid := program.heap[object_][field]];
        case Opassert(lvid) =>
          if registers[lvid] == 0 {
            return Threw(AssertFailed);
          }
        case Push(lvid) => parameters := parameters + [registers[lvid]];
        case Intrinsic(iid) =>
          trace := trace + [Event(iid, parameters)];
          parameters := [];
      }
    }

    // A jump, once a register was set
    method SetAndGo(lvid: nat, value: u64, id: nat) returns (r: Visited)
      requires Valid() && cursor < |ircode| && lvid < |registers|
      modifies this`cursor, this`upperLabelID, this`registers
      ensures r == Went || r == Threw(InvalidLabel)
      ensures var s := JumpTo(ircode, old(Now(cursor)), old(registers)[lvid := value], id);
        if r == Went then Now(cursor + 1) == s else s.status == Fault(InvalidLabel)
    {
      hide JumpTo;
      JumpSame(ircode, Now(cursor), registers[lvid := value], id);
      registers := registers[lvid := value];
      r := GotoLabel(id);
    }

    // Labels and jumps
    method VisitJump(i: Instr) returns (r: Visited)
      requires Valid() && cursor < |ircode| && ircode[cursor] == i && MaxLvid(i) < |registers|
      requires i.Label? || i.Jmp? || i.Jz? || i.Jnz? || i.Jzraise?
      modifies this`cursor, this`upperLabelID, this`registers
      ensures r == Went || r == Threw(InvalidLabel)
      ensures var s := Control(program, ircode, old(Now(cursor)));
        if r == Went then Now(cursor + 1) == s else s.status == Fault(InvalidLabel)
    {
      hide JumpTo;
      r := Went;
      match i {
        case Label(id) =>
          if id > upperLabelID {
            upperLabelID := id;
          }
        case Jmp(target) =>
          r := GotoLabel(target);
        case Jz(lvid, result, target) =>
          if registers[lvid] == 0 {
            r := SetAndGo(result, 0, target);
          }
        case Jnz(lvid, result, target) =>
          if registers[lvid] != 0 {
            r := SetAndGo(result, 1, target);
          }
        case Jzraise(target) =>
          if !unwindRaisedError {
            r := GotoLabel(target);
          }
      }
    }

    // An error is raised
    method VisitRaise(lvid: nat, target: nat, atomid: nat) returns (r: Visited)
      requires Valid() && cursor < |ircode| && ircode[cursor] == Instr.Raise(lvid, target, atomid)
      requires MaxLvid(ircode[cursor]) < |registers|
      modifies this`cursor, this`upperLabelID, this`registers, this`retval
      modifies this`unwindRaisedError, this`raisedError, this`raisedErrorAtomid
      ensures r != Exhausted
      ensures Reflects(r, old(Now(cursor)), Control(program, ircode, old(Now(cursor))))
    {
      hide JumpTo;
      hide Leave;
      raisedError := registers[lvid];
      raisedErrorAtomid := atomid;
      if target == 0 {
        unwindRaisedError := true;
        ReturnFromCurrentFunc(0);
        r := Left;
      } else {
        unwindRaisedError := false;
        r := SetAndGo(target + 1, raisedError, target);
      }
    }

    // An error which came out of a call meets a handler
    method VisitJmperrhandler(atomid: nat, target: nat) returns (r: Visited)
      requires Valid() && cursor < |ircode| && ircode[cursor] == Instr.Jmperrhandler(atomid, target)
      requires MaxLvid(ircode[cursor]) < |registers|
      modifies this`cursor, this`upperLabelID, this`registers
      modifies this`unwindRaisedError, this`raisedError
      ensures r != Exhausted && r != Left
      ensures Reflects(r, old(Now(cursor)), Control(program, ircode, old(Now(cursor))))
    {
      hide JumpTo;
      r := Went;
      if atomid == raisedErrorAtomid || atomid == 0 {
        var error := raisedError;
        raisedError := 0;
        unwindRaisedError := false;
        if atomid != 0 {
          r := SetAndGo(target + 1, error, target);
        } else {
          r := GotoLabel(target);
        }
      }
    }

    // The visit of the instruction where the machine was in the state 'before' has done what the machine does
    ghost predicate Reflects(r: Visited, before: State, s: State)
      reads this
    {
      match r
      case Went => Now(cursor + 1) == s
      case Threw(e) => s.status == Fault(e)
      case Left => s == Leave(Now(before.act.pc).(retval := before.retval), retval)
      case Exhausted => true
    }

    // Instructions which drive the control flow, but calls
    method VisitControl(i: Instr) returns (r: Visited)
      requires Valid() && cursor < |ircode| && ircode[cursor] == i
      requires !IsPlain(i) && !i.Call? && MaxLvid(i) < |registers|
      modifies this`cursor, this`upperLabelID, this`registers, this`retval
      modifies this`unwindRaisedError, this`raisedError, this`raisedErrorAtomid
      ensures r != Exhausted
      ensures Reflects(r, old(Now(cursor)), Control(program, ircode, old(Now(cursor))))
    {
      hide Control;
      hide Leave;
      ControlIs(program, ircode, Now(cursor));
      if i.Raise? {
        r := VisitRaise(i.lvid, i.target, i.atomid);
      } else if i.Jmperrhandler? {
        r := VisitJmperrhandler(i.atomid, i.target);
      } else if i.Ret? {
        ReturnFromCurrentFunc(registers[i.lvid]);
        r := Left;
      } else if i.Stacksize? {
        r := Threw(UnexpectedOpcode);
      } else {
        r := VisitJump(i);
      }
    }

    // The frame is saved, the callee runs on a frame of its own, then the frame is restored with the result
    method Call(retlvid: nat, callee: nat, fuel: nat) returns (r: Visited, left: nat, ghost steps: nat)
      requires Valid() && cursor < |ircode| && ircode[cursor] == Instr.Call(retlvid, callee) && retlvid < |registers|
      modifies this
      ensures left <= fuel && r != Left && steps > 0
      ensures r == Went ==> Valid() && Resumes(old(Now(cursor)), retlvid) && func == old(func) && cursor == old(cursor)
      ensures r == Went ==> Now(cursor + 1) == StepN(program, old(Now(cursor)), steps)
      ensures r.Threw? ==> StepN(program, old(Now(cursor)), steps).status == Fault(r.e)
      decreases fuel, 0
    {
      hide StepN;
      hide Step;
      hide Leave;
      hide Enter;
      hide Entry;
      left, steps := fuel, 1;
      ghost var before := Now(cursor);
      CallStep(program, before, retlvid, callee);
      EnterIs(program, before, retlvid, callee);
      if callee >= |program.funcs| || |program.funcs[callee]| == 0 || !program.funcs[callee][0].Stacksize? {
        r := Threw(UnexpectedOpcode);
        return;
      }
      var framesize := program.funcs[callee][0].add;
      if framesize < |parameters| + 2 {
        r := Threw(InvalidLvid);
        return;
      }
      if fuel == 0 {
        r := Exhausted;
        return;
      }
      var storeregisters, storefunc, storeircode, storecursor, labelid := registers, func, ircode, cursor, upperLabelID;
      EnterFrame(retlvid, callee, framesize);
      ghost var more, last;
      r, left, more, last := Each(fuel - 1);
      StepAdd(program, before, 1, more);
      steps := 1 + more;
      if r == Left {
        LeaveFrame(storeregisters, storefunc, storeircode, storecursor, labelid, retlvid, before);
        LeaveRestores(last, retval, before, retlvid, Now(cursor + 1));
        r := Went;
      }
    }

    method EnterFrame(retlvid: nat, callee: nat, framesize: nat)
      requires callee < |program.funcs| && framesize >= |parameters| + 2
      modifies this
      ensures Valid() && cursor == 1 && callers == old(callers) + [Suspended(old(Now(cursor)).act, retlvid)]
      ensures Now(1)
           == old(Now(cursor)).(act := Activation(callee, 1, 0, Entry(framesize, program.fill, old(parameters))),
                                callers := callers, params := [], retval := 0)
    {
      callers := callers + [Suspended(Now(cursor).act, retlvid)];
      func, ircode, cursor, upperLabelID := callee, program.funcs[callee], 1, 0;
      registers := Entry(framesize, program.fill, parameters);
      parameters, retval := [], 0;
    }

    method LeaveFrame(storeregisters: seq<u64>, storefunc: nat, storeircode: Code, storecursor: nat, labelid: nat,
                      retlvid: nat, ghost before: State)
      requires storefunc < |program.funcs| && storeircode == program.funcs[storefunc]
      requires before.act == Activation(storefunc, storecursor, labelid, storeregisters) && retlvid < |storeregisters|
      modifies this
      ensures Valid() && Resumes(before, retlvid) && func == storefunc && cursor == storecursor
      ensures Now(cursor + 1)
           == old(Now(cursor)).(act := before.act.(pc := storecursor + 1, regs := storeregisters[retlvid := retval]),
                                callers := before.callers)
      ensures retval == old(retval)
    {
      callers := before.callers;
      upperLabelID, registers, func, ircode, cursor := labelid, storeregisters, storefunc, storeircode, storecursor;
      SetRegister(retlvid, retval);
    }

    // The frame of the caller, but for the register of the result
    ghost predicate Resumes(before: State, retlvid: nat)
      reads this
      requires retlvid < |before.act.regs|
    {
      && callers == before.callers && func == before.act.func && upperLabelID == before.act.upper
      && registers == before.act.regs[retlvid := retval]
    }

    // The instructions of the current function, from the cursor to its end
    method Each(fuel: nat) returns (r: Visited, left: nat, ghost steps: nat, ghost last: State)
      requires Valid()
      modifies this
      ensures left <= fuel && r != Went
      ensures r == Left ==>
        callers == old(callers) && StepN(program, old(Now(cursor)), steps) == Leave(last, retval)
        && last == Now(last.act.pc).(retval := last.retval)
      ensures r.Threw? ==> StepN(program, old(Now(cursor)), steps).status == Fault(r.e)
      decreases fuel, 1
    {
      hide StepN;
      hide Step;
      hide Leave;
      hide Control;
      hide Plain;
      hide IsPlain;
      left, steps, last := fuel, 0, Now(cursor);
      ghost var start := Now(cursor);
      NoStep(program, start);
      while cursor < |ircode|
        invariant Valid() && left <= fuel && callers == old(callers)
        invariant Now(cursor) == StepN(program, start, steps)
        decreases left
      {
        if left == 0 {
          r := Exhausted;
          return;
        }
        var i := ircode[cursor];
        ghost var more := 1;
        last := Now(cursor);
        VisitedStep(program, Now(cursor), ircode);
        if MaxLvid(i) >= |registers| {
          r := Threw(InvalidLvid);
        } else if IsPlain(i) {
          left := left - 1;
          r := VisitPlain(i);
        } else if i.Call? {
          r, left, more := Call(i.lvid, i.func, left - 1);
        } else {
          left := left - 1;
          r := VisitControl(i);
        }
        StepAdd(program, start, steps, more);
        steps := steps + more;
        if r == Left {
          last := Now(last.act.pc).(retval := last.retval);
        }
        if r != Went {
          return;
        }
        cursor := cursor + 1;
      }
      r, last := Left, Now(cursor);
      EndStep(program, Now(cursor), ircode);
      StepAdd(program, start, steps, 1);
      steps := steps + 1;
    }
  }

  lemma EnterIs(p: Program, s: State, retlvid: nat, func: nat)
    ensures func >= |p.funcs| || |p.funcs[func]| == 0 || !p.funcs[func][0].Stacksize? ==>
      Enter(p, s, retlvid, func).status == Fault(UnexpectedOpcode)
    ensures func < |p.funcs| && |p.funcs[func]| > 0 && p.funcs[func][0].Stacksize? ==>
      var size := p.funcs[func][0].add;
      (size < |s.params| + 2 ==> Enter(p, s, retlvid, func).status == Fault(InvalidLvid))
      && (size >= |s.params| + 2 ==>
            Enter(p, s, retlvid, func)
            == s.(act := Activation(func, 1, 0, Entry(size, p.fill, s.params)),
                  callers := s.callers + [Suspended(s.act, retlvid)], params := [], retval := 0))
  {
    hide Entry;
  }

  lemma ControlIs(p: Program, code: Code, s: State)
    requires s.act.pc < |code| && !IsPlain(code[s.act.pc]) && MaxLvid(code[s.act.pc]) < |s.act.regs|
    ensures code[s.act.pc].Ret? ==> Control(p, code, s) == Leave(s, s.act.regs[code[s.act.pc].lvid])
    ensures code[s.act.pc].Stacksize? ==> Control(p, code, s) == Fail(s, UnexpectedOpcode)
  {
  }

  lemma JumpSame(code: Code, s: State, regs: seq<u64>, id: nat)
    requires s.act.pc < |code| && s.status == Running
    ensures var t := JumpTo(code, s.(act := s.act.(regs := regs)), regs, id);
      if t.status == Running then JumpTo(code, s, regs, id) == t
      else JumpTo(code, s, regs, id).status == t.status == Fault(InvalidLabel)
  {
    hide Goto;
  }

  lemma NoStep(p: Program, s: State)
    ensures StepN(p, s, 0) == s
  {
  }

  lemma OneStep(p: Program, s: State)
    ensures StepN(p, s, 1) == Step(p, s)
  {
    assert StepN(p, s, 1) == StepN(p, Step(p, s), 0);
  }

  lemma VisitedStep(p: Program, s: State, code: Code)
    requires s.status == Running && s.act.func < |p.funcs| && code == p.funcs[s.act.func] && s.act.pc < |code|
    ensures MaxLvid(code[s.act.pc]) >= |s.act.regs| ==> StepN(p, s, 1) == Fail(s, InvalidLvid)
    ensures MaxLvid(code[s.act.pc]) < |s.act.regs| ==>
      StepN(p, s, 1) == if IsPlain(code[s.act.pc]) then Plain(p, code[s.act.pc], s) else Control(p, code, s)
  {
    hide Control;
    hide Plain;
    hide IsPlain;
    OneStep(p, s);
  }

  lemma EndStep(p: Program, s: State, code: Code)
    requires s.status == Running && s.act.func < |p.funcs| && code == p.funcs[s.act.func] && s.act.pc >= |code|
    ensures StepN(p, s, 1) == Leave(s, s.retval)
  {
    hide Control;
    hide Plain;
    OneStep(p, s);
  }

  lemma LeaveRestores(s: State, value: u64, before: State, retlvid: nat, after: State)
    requires s.callers == before.callers + [Suspended(before.act, retlvid)] && retlvid < |before.act.regs|
    requires after == s.(act := before.act.(pc := before.act.pc + 1, regs := before.act.regs[retlvid := value]),
                         callers := before.callers, retval := value)
    ensures Leave(s, value) == after
  {
  }

  lemma CallStep(p: Program, s: State, retlvid: nat, callee: nat)
    requires s.status == Running && s.act.func < |p.funcs| && s.act.pc < |p.funcs[s.act.func]|
    requires p.funcs[s.act.func][s.act.pc] == Call(retlvid, callee) && retlvid < |s.act.regs|
    ensures StepN(p, s, 1) == Enter(p, s, retlvid, callee)
  {
    assert StepN(p, s, 1) == StepN(p, Step(p, s), 0);
  }
}
