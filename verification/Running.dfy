// Runs of the machine over a fragment placed somewhere in a function: a run is any number of steps, a fragment stands
// at a position, and the registers above the ones drawn so far may change while the others are kept. Idle
// instructions and jumps are crossed here once for all.
module Running {
  import opened Isa
  import opened Jumps
  import opened Machine
  import opened Handlers

  ghost predicate Reaches(m: Program, s: State, t: State) {
    exists k: nat :: StepN(m, s, k) == t
  }

  lemma ReachSelf(m: Program, s: State)
    ensures Reaches(m, s, s)
  {
    assert StepN(m, s, 0) == s;
  }

  lemma ReachStep(m: Program, s: State)
    ensures Reaches(m, s, Step(m, s))
  {
    assert StepN(m, s, 1) == StepN(m, Step(m, s), 0);
  }

  lemma ReachTrans(m: Program, s: State, t: State, u: State)
    requires Reaches(m, s, t) && Reaches(m, t, u)
    ensures Reaches(m, s, u)
  {
    var k: nat :| StepN(m, s, k) == t;
    var j: nat :| StepN(m, t, j) == u;
    StepAdd(m, s, k, j);
  }

  // The machine is still running after as many steps as half of 'n'
  ghost predicate Goes(m: Program, s: State, n: int) {
    exists k: nat :: 2 * k >= n && StepN(m, s, k).status == Running
  }

  lemma GoesNow(m: Program, s: State)
    requires s.status == Running
    ensures Goes(m, s, 0)
  {
    assert StepN(m, s, 0) == s;
  }

  lemma GoesOn(m: Program, s: State, t: State, n: int)
    requires Reaches(m, s, t) && Goes(m, t, n)
    ensures Goes(m, s, n)
    ensures s != t ==> Goes(m, s, n + 2)
  {
    var k: nat :| StepN(m, s, k) == t;
    var j: nat :| 2 * j >= n && StepN(m, t, j).status == Running;
    StepAdd(m, s, k, j);
    assert StepN(m, s, k + j) == StepN(m, t, j);
    if s != t {
      assert k > 0;
      assert 2 * (k + j) >= n + 2;
    }
  }

  // The fragment stands at 'pos'
  ghost predicate At(code: Code, pos: nat, frag: Code) {
    pos + |frag| <= |code| && forall i :: 0 <= i < |frag| ==> code[pos + i] == frag[i]
  }

  lemma AtSplit(code: Code, pos: nat, a: Code, b: Code)
    requires At(code, pos, a + b)
    ensures At(code, pos, a) && At(code, pos + |a|, b)
  {
    assert forall i :: 0 <= i < |a| ==> (a + b)[i] == a[i];
    assert forall i :: 0 <= i < |b| ==> (a + b)[|a| + i] == b[i];
  }

  // Ready to visit the instruction at 'pos'
  ghost predicate Ready(m: Program, s: State, f: nat, pos: nat, unwinding: bool) {
    && s.status == Running && s.params == [] && s.unwinding == unwinding
    && s.act.func == f && f < |m.funcs| && s.act.pc == pos && pos <= |m.funcs[f]|
    && s.act.upper == UpTo(m.funcs[f], pos)
  }

  // The same activation, the registers from 1 to 'n' being kept, but one perhaps
  ghost predicate Keeps(s: State, t: State, n: nat, except: set<nat>) {
    && t.callers == s.callers && t.act.func == s.act.func && |t.act.regs| == |s.act.regs|
    && forall i :: 0 < i <= n && i < |s.act.regs| && i !in except ==> t.act.regs[i] == s.act.regs[i]
  }

  lemma KeepsTrans(s: State, t: State, u: State, n: nat, n': nat, except: set<nat>, except': set<nat>)
    requires Keeps(s, t, n, except) && Keeps(t, u, n', except') && n <= n'
    ensures Keeps(s, u, n, except + except')
  {
  }

  // The function has returned 'v' to its caller
  ghost predicate Popped(s: State, t: State, v: u64, unwinding: bool) {
    && t.retval == v && t.unwinding == unwinding
    && if s.callers == [] then t.status == Halted
       else
         var c := s.callers[|s.callers| - 1];
         && t.status == Running && t.params == []
         && c.retlvid < |c.act.regs|
         && t.callers == s.callers[..|s.callers| - 1]
         && t.act == c.act.(pc := c.act.pc + 1, regs := c.act.regs[c.retlvid := v])
  }

  ghost predicate CanReturn(s: State) {
    s.callers == [] || s.callers[|s.callers| - 1].retlvid < |s.callers[|s.callers| - 1].act.regs|
  }

  // Instructions which do nothing, but for the label counter
  predicate IsIdle(i: Instr) { i.Nop? || i.ScopeBegin? || i.ScopeEnd? || i.Stackalloc? || i.Label? }

  ghost predicate Idle(code: Code, from: nat, to: nat, top: nat) {
    from <= to <= |code| && forall i :: from <= i < to ==> IsIdle(code[i]) && MaxLvid(code[i]) < top
  }

  lemma PlainStep(m: Program, s: State, f: nat, pos: nat, u: bool)
    requires Ready(m, s, f, pos, u) && pos < |m.funcs[f]|
    requires IsPlain(m.funcs[f][pos]) && MaxLvid(m.funcs[f][pos]) < |s.act.regs|
    ensures Step(m, s) == Plain(m, m.funcs[f][pos], s)
    ensures Reaches(m, s, Step(m, s))
    ensures UpTo(m.funcs[f], pos + 1) == UpTo(m.funcs[f], pos)
  {
    ReachStep(m, s);
  }

  lemma {:induction false} IdleRun(m: Program, s: State, f: nat, pos: nat, to: nat, u: bool) returns (t: State)
    requires Ready(m, s, f, pos, u) && Idle(m.funcs[f], pos, to, |s.act.regs|)
    ensures Reaches(m, s, t) && Ready(m, t, f, to, u)
    ensures t == s.(act := s.act.(pc := to, upper := UpTo(m.funcs[f], to)))
    decreases if pos <= to then to - pos else 0
  {
    if pos == to {
      t := s;
      ReachSelf(m, s);
    } else {
      ReachStep(m, s);
      var t1 := Step(m, s);
      assert t1 == s.(act := s.act.(pc := pos + 1, upper := UpTo(m.funcs[f], pos + 1)));
      t := IdleRun(m, t1, f, pos + 1, to, u);
      ReachTrans(m, s, t1, t);
    }
  }

  // A jump forward: every label met before the first 'id' is smaller, and there is nothing to do from there to 'to'
  lemma Forward(m: Program, s: State, f: nat, regs: seq<u64>, id: nat, first: nat, to: nat) returns (t: State)
    requires s.status == Running && s.params == [] && s.act.func == f < |m.funcs| && Ordered(m)
    requires s.act.pc < first < to <= |m.funcs[f]| && s.act.upper == UpTo(m.funcs[f], s.act.pc)
    requires !m.funcs[f][s.act.pc].Label?
    requires m.funcs[f][first] == Label(id) && UpTo(m.funcs[f], first) < id
    requires Idle(m.funcs[f], first, to, |regs|)
    ensures Reaches(m, JumpTo(m.funcs[f], s, regs, id), t)
    ensures t == s.(act := s.act.(pc := to, upper := UpTo(m.funcs[f], to), regs := regs))
  {
    var code := m.funcs[f];
    forall i | 0 <= i < first && code[i].Label?
      ensures code[i].id < id
    {
      UpToIsBound(code, first, i);
    }
    if s.act.upper > 0 {
      var i := UpToIsReached(code, s.act.pc);
    }
    assert Goto(code, s.act.pc, s.act.upper, id) == Some(first);
    var t1 := JumpTo(code, s, regs, id);
    UpToOrdered(code, first);
    assert t1 == s.(act := s.act.(pc := first + 1, upper := UpTo(code, first + 1), regs := regs));
    t := IdleRun(m, t1, f, first + 1, to, s.unwinding);
  }

  // A jump backward: every label met since 'id' is greater
  lemma Backward(m: Program, s: State, f: nat, regs: seq<u64>, id: nat, target: nat)
    requires s.status == Running && s.act.func == f < |m.funcs| && Ordered(m)
    requires target < s.act.pc < |m.funcs[f]| && s.act.upper == UpTo(m.funcs[f], s.act.pc)
    requires m.funcs[f][target] == Label(id)
    requires forall i :: target < i < s.act.pc && m.funcs[f][i].Label? ==> m.funcs[f][i].id > id
    ensures JumpTo(m.funcs[f], s, regs, id)
         == s.(act := s.act.(pc := target + 1, upper := UpTo(m.funcs[f], target + 1), regs := regs))
  {
    var code := m.funcs[f];
    UpToIsBound(code, s.act.pc, target);
    UpToOrdered(code, target);
    assert FindBackward(code, s.act.pc, id) == Some(target);
  }
}
