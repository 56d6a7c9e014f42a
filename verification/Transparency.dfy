// Calls are transparent, for any code: the caller is resumed as it was left, but for the register of the result.
module Transparency {
  import opened Isa
  import opened Jumps
  import opened Machine

  // The caller 's' waits in 't', below everything its callee has called, for the result in 'lvid'
  ghost predicate Inside(s: State, lvid: nat, t: State) {
    && |s.callers| < |t.callers| && t.callers[..|s.callers|] == s.callers
    && t.callers[|s.callers|] == Suspended(s.act, lvid)
    && t.status != Halted
  }

  // The caller goes on after its call: same registers but one, same function, label counter and callers
  ghost predicate Resumed(s: State, lvid: nat, t: State) {
    && lvid < |s.act.regs| && t.status == Running && t.callers == s.callers
    && t.act == s.act.(pc := s.act.pc + 1, regs := s.act.regs[lvid := t.retval])
  }

  // One step leaves the callers alone, or adds one, or resumes the last one
  ghost predicate Popping(t: State, u: State) {
    && t.callers != [] && u.callers == t.callers[..|t.callers| - 1] && u.status == t.status
    && var c := t.callers[|t.callers| - 1];
       c.retlvid < |c.act.regs| && u.act == c.act.(pc := c.act.pc + 1, regs := c.act.regs[c.retlvid := u.retval])
  }

  lemma LeaveDepth(t: State, value: u64)
    requires t.status == Running && t.callers != []
    ensures var u := Leave(t, value); Popping(t, u) || (u.callers == t.callers && u.status.Fault?)
  {
  }

  lemma ControlDepth(p: Program, code: Code, t: State)
    requires t.status == Running && t.callers != [] && t.act.pc < |code|
    requires !IsPlain(code[t.act.pc]) && MaxLvid(code[t.act.pc]) < |t.act.regs|
    ensures var u := Control(p, code, t);
      Popping(t, u) || (t.callers <= u.callers && u.status != Halted)
  {
    match code[t.act.pc]
    case Ret(lvid) => LeaveDepth(t, t.act.regs[lvid]);
    case Raise(lvid, target, atomid) =>
      if target == 0 {
        LeaveDepth(t.(error := t.act.regs[lvid], errorType := atomid, unwinding := true), 0);
      }
    case _ =>
  }

  lemma StepDepth(p: Program, t: State)
    requires t.status == Running && t.callers != []
    ensures var u := Step(p, t);
      Popping(t, u) || (t.callers <= u.callers && u.status != Halted)
  {
    if t.act.func < |p.funcs| {
      var code := p.funcs[t.act.func];
      if t.act.pc >= |code| {
        LeaveDepth(t, t.retval);
      } else if MaxLvid(code[t.act.pc]) < |t.act.regs| && !IsPlain(code[t.act.pc]) {
        ControlDepth(p, code, t);
      }
    }
  }

  lemma StepInside(p: Program, s: State, lvid: nat, t: State)
    requires Inside(s, lvid, t)
    ensures Inside(s, lvid, Step(p, t)) || Resumed(s, lvid, Step(p, t))
  {
    if t.status == Running {
      StepDepth(p, t);
      hide Step;
      var u := Step(p, t);
      if Popping(t, u) && |t.callers| > |s.callers| + 1 {
        assert u.callers[..|s.callers|] == t.callers[..|s.callers|];
      } else if !Popping(t, u) {
        assert u.callers[..|s.callers|] == t.callers[..|s.callers|];
      }
    }
  }

  // For any number of steps from within the callee: still in it (perhaps stopped by a fault there), or the caller
  // was resumed after 'j' steps, before which it was never touched
  lemma {:induction false} InsideOrResumed(p: Program, s: State, lvid: nat, t: State, k: nat) returns (j: nat)
    requires Inside(s, lvid, t)
    ensures j <= k
    ensures forall i: nat :: i < j ==> Inside(s, lvid, StepN(p, t, i))
    ensures Resumed(s, lvid, StepN(p, t, j)) || (j == k && Inside(s, lvid, StepN(p, t, k)))
    decreases k
  {
    if k == 0 {
      j := 0;
    } else {
      StepInside(p, s, lvid, t);
      var t1 := Step(p, t);
      if Resumed(s, lvid, t1) {
        j := 1;
        assert StepN(p, t, 1) == StepN(p, t1, 0);
      } else {
        var j1 := InsideOrResumed(p, s, lvid, t1, k - 1);
        j := j1 + 1;
        forall i: nat | i < j
          ensures Inside(s, lvid, StepN(p, t, i))
        {
          if i > 0 {
            assert StepN(p, t, i) == StepN(p, t1, i - 1);
          }
        }
        assert StepN(p, t, j) == StepN(p, t1, j1);
      }
    }
  }

  lemma CallEnters(p: Program, s: State, lvid: nat, func: nat)
    requires s.status == Running && s.act.func < |p.funcs| && s.act.pc < |p.funcs[s.act.func]|
    requires p.funcs[s.act.func][s.act.pc] == Call(lvid, func) && lvid < |s.act.regs|
    requires !Step(p, s).status.Fault?
    ensures Inside(s, lvid, Step(p, s))
  {
    assert Step(p, s) == Enter(p, s, lvid, func);
  }

  // The same from the call itself
  lemma CallIsTransparent(p: Program, s: State, lvid: nat, func: nat, k: nat) returns (j: nat)
    requires s.status == Running && s.act.func < |p.funcs| && s.act.pc < |p.funcs[s.act.func]|
    requires p.funcs[s.act.func][s.act.pc] == Call(lvid, func) && lvid < |s.act.regs|
    requires !Step(p, s).status.Fault? && k > 0
    ensures 0 < j <= k
    ensures forall i: nat :: 0 < i < j ==> Inside(s, lvid, StepN(p, s, i))
    ensures Resumed(s, lvid, StepN(p, s, j)) || (j == k && Inside(s, lvid, StepN(p, s, k)))
  {
    hide *;
    CallEnters(p, s, lvid, func);
    var t := Step(p, s);
    var j1 := InsideOrResumed(p, s, lvid, t, k - 1);
    j := j1 + 1;
    forall i: nat | 0 < i < j
      ensures Inside(s, lvid, StepN(p, s, i))
    {
      OneMore(p, s, i);
    }
    OneMore(p, s, j);
    OneMore(p, s, k);
  }

  lemma OneMore(p: Program, s: State, i: nat)
    requires i > 0
    ensures StepN(p, s, i) == StepN(p, Step(p, s), i - 1)
  {
    hide Step;
  }
}
