// The virtual machine as a small-step machine with explicit suspended callers.
module Machine {
  import opened Isa
  import opened Jumps

  datatype Error = InvalidLabel | DivideByZero | AssertFailed | UnknownPointer | InvalidLvid | UnexpectedOpcode

  datatype Status = Running | Halted | Fault(error: Error)

  datatype Event = Event(iid: nat, args: seq<u64>)

  // 'pc' is the next instruction to visit
  datatype Activation = Activation(func: nat, pc: nat, upper: nat, regs: seq<u64>)

  // A caller waiting at its 'call' instruction
  datatype Suspended = Suspended(act: Activation, retlvid: nat)

  // 'fill' is what a fresh register holds, 'heap' the fields of the objects known to the allocator
  datatype Program = Program(funcs: seq<Code>, fill: u64, heap: map<u64, seq<u64>>)

  datatype State = State(
    act: Activation,
    callers: seq<Suspended>,
    params: seq<u64>,
    retval: u64,
    unwinding: bool,
    error: u64,
    errorType: nat,
    trace: seq<Event>,
    status: Status)

  function Fail(s: State, e: Error): State { s.(status := Fault(e)) }

  function Advance(s: State, regs: seq<u64>): State {
    s.(act := s.act.(pc := s.act.pc + 1, regs := regs))
  }

  // 'gotoLabel': the visit of the label itself is skipped
  function JumpTo(code: Code, s: State, regs: seq<u64>, id: nat): State
    requires s.act.pc < |code|
  {
    match Goto(code, s.act.pc, s.act.upper, id)
    case None => Fail(s, InvalidLabel)
    case Some(t) => s.(act := s.act.(pc := t + 1, upper := id, regs := regs))
  }

  function Entry(framesize: nat, fill: u64, params: seq<u64>): (regs: seq<u64>)
    requires framesize >= |params| + 2
    ensures |regs| == framesize
    ensures regs[0] == 0
    ensures forall i :: 0 <= i < |params| ==> regs[i + 2] == params[i]
  {
    [0, fill] + params + seq(framesize - |params| - 2, _ => fill)
  }

  function Enter(p: Program, s: State, retlvid: nat, func: nat): State {
    if func >= |p.funcs| || |p.funcs[func]| == 0 || !p.funcs[func][0].Stacksize? then Fail(s, UnexpectedOpcode)
    else if p.funcs[func][0].add < |s.params| + 2 then Fail(s, InvalidLvid)
    else s.(act := Activation(func, 1, 0, Entry(p.funcs[func][0].add, p.fill, s.params)),
            callers := s.callers + [Suspended(s.act, retlvid)],
            params := [],
            retval := 0)
  }

  // The current function is over: back to the caller, which stores the result
  function Leave(s: State, value: u64): State {
    if s.callers == [] then s.(retval := value, status := Halted)
    else
      var c := s.callers[|s.callers| - 1];
      if c.retlvid >= |c.act.regs| then Fail(s, InvalidLvid)
      else s.(act := c.act.(pc := c.act.pc + 1, regs := c.act.regs[c.retlvid := value]),
              callers := s.callers[..|s.callers| - 1],
              retval := value)
  }

  // Instructions which always go on with the next one
  predicate IsPlain(i: Instr) {
    i.Nop? || i.ScopeBegin? || i.ScopeEnd? || i.Stackalloc? || i.StoreConst? || i.Store? || i.Binary? ||
    i.Negation? || i.Fieldget? || i.Opassert? || i.Push? || i.Intrinsic?
  }

  function Plain(p: Program, i: Instr, s: State): (r: State)
    requires IsPlain(i) && MaxLvid(i) < |s.act.regs|
    ensures r.callers == s.callers && r.unwinding == s.unwinding && r.error == s.error && r.errorType == s.errorType
    ensures r.retval == s.retval
    ensures r.status.Fault? || (r.status == s.status && |r.act.regs| == |s.act.regs| &&
                                r.act == s.act.(pc := s.act.pc + 1, regs := r.act.regs))
    ensures r.status.Fault? && !s.status.Fault? ==> r.act == s.act
  {
    var regs := s.act.regs;
    match i
    case Nop => Advance(s, regs)
    case ScopeBegin => Advance(s, regs)
    case ScopeEnd => Advance(s, regs)
    case Stackalloc(_) => Advance(s, regs)
    case StoreConst(lvid, value) => Advance(s, regs[lvid := value])
    case Store(lvid, source) => Advance(s, regs[lvid := regs[source]])
    case Binary(op, lvid, lhs, rhs) =>
      (match Arith(op, regs[lhs], regs[rhs])
       case None => Fail(s, DivideByZero)
       case Some(v) => Advance(s, regs[lvid := v]))
    case Negation(lvid, lhs) => Advance(s, regs[lvid := if regs[lhs] == 0 then 1 else 0])
    case Fieldget(lvid, self, field) =>
      if regs[self] == 0 || regs[self] !in p.heap || field >= |p.heap[regs[self]]| then Fail(s, UnknownPointer)
      else Advance(s, regs[lvid := p.heap[regs[self]][field]])
    case Opassert(lvid) => if regs[lvid] == 0 then Fail(s, AssertFailed) else Advance(s, regs)
    case Push(lvid) => Advance(s.(params := s.params + [regs[lvid]]), regs)
    case Intrinsic(iid) => Advance(s.(trace := s.trace + [Event(iid, s.params)], params := []), regs)
  }

  function Control(p: Program, code: Code, s: State): State
    requires s.act.pc < |code|
    requires !IsPlain(code[s.act.pc]) && MaxLvid(code[s.act.pc]) < |s.act.regs|
  {
    var regs := s.act.regs;
    match code[s.act.pc]
    case Call(lvid, func) => Enter(p, s, lvid, func)
    case Ret(lvid) => Leave(s, regs[lvid])
    case Label(id) => Advance(s.(act := s.act.(upper := Max(s.act.upper, id))), regs)
    case Jmp(target) => JumpTo(code, s, regs, target)
    case Jz(lvid, result, target) =>
      if regs[lvid] == 0 then JumpTo(code, s, regs[result := 0], target) else Advance(s, regs)
    case Jnz(lvid, result, target) =>
      if regs[lvid] != 0 then JumpTo(code, s, regs[result := 1], target) else Advance(s, regs)
    case Raise(lvid, target, atomid) =>
      var r := s.(error := regs[lvid], errorType := atomid);
      if target == 0 then Leave(r.(unwinding := true), 0)
      else JumpTo(code, r.(unwinding := false), regs[target + 1 := regs[lvid]], target)
    case Jzraise(target) => if s.unwinding then Advance(s, regs) else JumpTo(code, s, regs, target)
    case Jmperrhandler(atomid, target) =>
      if atomid == s.errorType || atomid == 0 then
        JumpTo(code, s.(error := 0, unwinding := false),
               if atomid != 0 then regs[target + 1 := s.error] else regs, target)
      else Advance(s, regs)
    case Stacksize(_) => Fail(s, UnexpectedOpcode)
  }

  // One instruction of the running function
  function Step(p: Program, s: State): State {
    if s.status != Running then s
    else if s.act.func >= |p.funcs| then Fail(s, UnexpectedOpcode)
    else
      var code := p.funcs[s.act.func];
      if s.act.pc >= |code| then Leave(s, s.retval)
      else if MaxLvid(code[s.act.pc]) >= |s.act.regs| then Fail(s, InvalidLvid)
      else if IsPlain(code[s.act.pc]) then Plain(p, code[s.act.pc], s)
      else Control(p, code, s)
  }

  function StepN(p: Program, s: State, k: nat): State
    decreases k
  {
    if k == 0 then s else StepN(p, Step(p, s), k - 1)
  }

  lemma {:induction false} StepAdd(p: Program, s: State, k: nat, m: nat)
    ensures StepN(p, s, k + m) == StepN(p, StepN(p, s, k), m)
    decreases k
  {
    if k != 0 {
      StepAdd(p, Step(p, s), k - 1, m);
    }
  }

  // ---- the label counter of every activation ----

  // Every sequence has positive and ordered labels
  ghost predicate Ordered(p: Program) {
    forall f :: 0 <= f < |p.funcs| ==> OrderedLabels(p.funcs[f]) && PositiveLabels(p.funcs[f])
  }

  ghost predicate Tracked(p: Program, a: Activation) {
    a.func < |p.funcs| && a.pc <= |p.funcs[a.func]| && a.upper == UpTo(p.funcs[a.func], a.pc)
  }

  ghost predicate Waiting(p: Program, c: Suspended) {
    && Tracked(p, c.act)
    && c.act.pc < |p.funcs[c.act.func]|
    && p.funcs[c.act.func][c.act.pc].Call?
  }

  ghost predicate Invariant(p: Program, s: State) {
    && Tracked(p, s.act)
    && forall i :: 0 <= i < |s.callers| ==> Waiting(p, s.callers[i])
  }

  lemma JumpKeepsInvariant(p: Program, s: State, regs: seq<u64>, id: nat)
    requires Ordered(p) && Invariant(p, s) && s.act.pc < |p.funcs[s.act.func]|
    requires !p.funcs[s.act.func][s.act.pc].Label?
    ensures Invariant(p, JumpTo(p.funcs[s.act.func], s, regs, id))
    ensures JumpTo(p.funcs[s.act.func], s, regs, id).status == Fault(InvalidLabel)
      || JumpTo(p.funcs[s.act.func], s, regs, id).status == s.status
    ensures s.status == Running ==>
      (JumpTo(p.funcs[s.act.func], s, regs, id).status == Fault(InvalidLabel)
       <==> !HasLabel(p.funcs[s.act.func], id))
  {
    GotoIsNearest(p.funcs[s.act.func], s.act.pc, id);
  }

  lemma AdvanceKeepsInvariant(p: Program, s: State, regs: seq<u64>)
    requires Invariant(p, s) && s.act.pc < |p.funcs[s.act.func]|
    ensures var i := p.funcs[s.act.func][s.act.pc];
      Invariant(p, Advance(if i.Label? then s.(act := s.act.(upper := Max(s.act.upper, i.id))) else s, regs))
  {
  }

  lemma EnterKeepsInvariant(p: Program, s: State, retlvid: nat, func: nat)
    requires Invariant(p, s) && s.act.pc < |p.funcs[s.act.func]| && p.funcs[s.act.func][s.act.pc].Call?
    ensures Invariant(p, Enter(p, s, retlvid, func))
  {
    if func < |p.funcs| && |p.funcs[func]| > 0 && p.funcs[func][0].Stacksize? {
      assert UpTo(p.funcs[func], 1) == UpTo(p.funcs[func], 0);
    }
  }

  lemma LeaveKeepsInvariant(p: Program, s: State, value: u64)
    requires Invariant(p, s)
    ensures Invariant(p, Leave(s, value))
  {
    if s.callers != [] {
      var c := s.callers[|s.callers| - 1];
      assert Waiting(p, c);
    }
  }

  lemma ControlKeepsInvariant(p: Program, s: State)
    requires Ordered(p) && Invariant(p, s) && s.act.pc < |p.funcs[s.act.func]|
    requires !IsPlain(p.funcs[s.act.func][s.act.pc]) && MaxLvid(p.funcs[s.act.func][s.act.pc]) < |s.act.regs|
    ensures Invariant(p, Control(p, p.funcs[s.act.func], s))
  {
    var regs := s.act.regs;
    AdvanceKeepsInvariant(p, s, regs);
    match p.funcs[s.act.func][s.act.pc]
    case Jmp(target) => JumpKeepsInvariant(p, s, regs, target);
    case Jz(lvid, result, target) => JumpKeepsInvariant(p, s, regs[result := 0], target);
    case Jnz(lvid, result, target) => JumpKeepsInvariant(p, s, regs[result := 1], target);
    case Jzraise(target) => JumpKeepsInvariant(p, s, regs, target);
    case Raise(lvid, target, atomid) =>
      var r := s.(error := regs[lvid], errorType := atomid);
      if target != 0 {
        JumpKeepsInvariant(p, r.(unwinding := false), regs[target + 1 := regs[lvid]], target);
      } else {
        LeaveKeepsInvariant(p, r.(unwinding := true), 0);
      }
    case Jmperrhandler(atomid, target) =>
      if atomid == s.errorType || atomid == 0 {
        JumpKeepsInvariant(p, s.(error := 0, unwinding := false),
                           if atomid != 0 then regs[target + 1 := s.error] else regs, target);
      }
    case Call(lvid, func) => EnterKeepsInvariant(p, s, lvid, func);
    case Ret(lvid) => LeaveKeepsInvariant(p, s, regs[lvid]);
    case _ =>
  }

  lemma StepKeepsInvariant(p: Program, s: State)
    requires Ordered(p) && Invariant(p, s)
    ensures Invariant(p, Step(p, s))
  {
    if s.status == Running {
      var code := p.funcs[s.act.func];
      if s.act.pc >= |code| {
        LeaveKeepsInvariant(p, s, s.retval);
      } else if MaxLvid(code[s.act.pc]) < |s.act.regs| {
        if IsPlain(code[s.act.pc]) {
          AdvanceKeepsInvariant(p, s, Step(p, s).act.regs);
        } else {
          ControlKeepsInvariant(p, s);
        }
      }
    }
  }

  // In every reachable state, the counter of every activation is the greatest label before its cursor
  lemma {:induction false} RunKeepsInvariant(p: Program, s: State, k: nat)
    requires Ordered(p) && Invariant(p, s)
    ensures Invariant(p, StepN(p, s, k))
    decreases k
  {
    if k != 0 {
      StepKeepsInvariant(p, s);
      RunKeepsInvariant(p, Step(p, s), k - 1);
    }
  }
}
