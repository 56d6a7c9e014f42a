// In every run of an accepted program, an error unwinds only through the dispatch of a call, and only the
// predicted errors leave a function.
module Unwinding {
  import opened Isa
  import opened Jumps
  import opened Machine
  import opened Handlers
  import opened Source
  import opened Emitter
  import opened Running
  import opened Dispatching
  import opened Correspondence
  import opened Preservation
  import opened Effects
  import opened Containment

  // Every sequence is guarded, with the errors of its function
  ghost predicate AllGuarded(m: Program, raised: seq<Errors>) {
    |raised| == |m.funcs| && forall f :: 0 <= f < |m.funcs| ==> Guarded(m.funcs[f], raised, raised[f])
  }

  // The error of the call at 'i' is on its way: at the end of the scope, at the test, or in the chain of the
  // handlers, none of the previous ones being for it
  ghost predicate OnItsWay(code: Code, i: nat, raised: seq<Errors>, own: Errors, hs: Stack, id: nat, pc: nat,
                           atomid: nat) {
    && GuardedBy(code, i, raised, own, hs, id) && atomid in raised[code[i].func]
    && i < pc < i + 3 + |OnError(hs)|
    && (pc >= i + 3 && !hs.IsEmpty() ==> hs.Select(atomid).Some? && pc - (i + 3) <= hs.Select(atomid).value)
  }

  ghost predicate Passing(code: Code, raised: seq<Errors>, own: Errors, pc: nat, atomid: nat) {
    exists i, hs, id :: OnItsWay(code, i, raised, own, hs, id, pc, atomid)
  }

  // The function called by the k-th caller
  function Callee(s: State, k: nat): nat
    requires k < |s.callers|
  {
    if k + 1 < |s.callers| then s.callers[k + 1].act.func else s.act.func
  }

  ghost predicate CallsItsCallee(m: Program, s: State, k: nat)
    requires k < |s.callers|
  {
    var a := s.callers[k].act;
    && a.func < |m.funcs| && a.pc < |m.funcs[a.func]|
    && m.funcs[a.func][a.pc].Call? && m.funcs[a.func][a.pc].func == Callee(s, k)
  }

  function EntryPoint(s: State): nat { if s.callers == [] then s.act.func else s.callers[0].act.func }

  ghost predicate Contained(m: Program, raised: seq<Errors>, entry: nat, s: State) {
    && AllGuarded(m, raised) && s.act.func < |m.funcs| && EntryPoint(s) == entry
    && (forall k :: 0 <= k < |s.callers| ==> CallsItsCallee(m, s, k))
    && (s.unwinding && s.status == Running ==>
          Passing(m.funcs[s.act.func], raised, raised[s.act.func], s.act.pc, s.errorType))
    && (s.unwinding && s.status == Halted ==> s.callers == [] && s.errorType in raised[entry])
  }

  // What stands on the way of an error
  lemma WayCode(code: Code, i: nat, raised: seq<Errors>, own: Errors, hs: Stack, id: nat, pc: nat, atomid: nat)
    requires OnItsWay(code, i, raised, own, hs, id, pc, atomid)
    ensures pc < |code|
    ensures pc == i + 1 ==> code[pc] == ScopeEnd
    ensures pc == i + 2 ==> code[pc].Jzraise?
    ensures pc >= i + 3 ==> code[pc] == OnError(hs)[pc - (i + 3)]
    ensures |OnError(hs)| > 0
  {
    hide OnError;
    hide Dispatch;
    DispatchShape(hs, id);
    var frag := [ScopeEnd] + Dispatch(hs, id);
    assert code[i + 1 + (pc - (i + 1))] == frag[pc - (i + 1)];
    if pc > i + 1 {
      assert frag[pc - (i + 1)] == Dispatch(hs, id)[pc - (i + 2)];
    }
  }

  // The flag is clear whenever a label is visited, the one which closes a dispatch in particular
  lemma NeverAtLabel(m: Program, raised: seq<Errors>, entry: nat, s: State)
    requires Contained(m, raised, entry, s) && s.unwinding && s.status == Running
    ensures s.act.pc < |m.funcs[s.act.func]|
    ensures var i := m.funcs[s.act.func][s.act.pc];
      i == ScopeEnd || i.Jzraise? || i.Jmperrhandler? || i == Ret(0)
  {
    var code := m.funcs[s.act.func];
    var i, hs, id :| OnItsWay(code, i, raised, raised[s.act.func], hs, id, s.act.pc, s.errorType);
    hide Guarded;
    WayCode(code, i, raised, raised[s.act.func], hs, id, s.act.pc, s.errorType);
    DispatchShape(hs, id);
    hide OnError;
    hide Dispatch;
  }

  // ---- the steps ----

  // The function is left, with one of its errors perhaps
  lemma LeaveContained(m: Program, raised: seq<Errors>, entry: nat, s0: State, s: State, value: u64)
    requires Contained(m, raised, entry, s0) && s.status == Running && s.act == s0.act && s.callers == s0.callers
    requires s.unwinding ==> s.errorType in raised[s.act.func]
    ensures Contained(m, raised, entry, Leave(s, value))
  {
    hide Guarded;
    if s.callers != [] {
      LeaveLinks(m, s0, s, value);
      LeaveBack(m, raised, entry, s0, s, value);
    }
  }

  lemma LeaveLinks(m: Program, s0: State, s: State, value: u64)
    requires s.callers != [] && s.act == s0.act && s.callers == s0.callers
    requires forall k :: 0 <= k < |s0.callers| ==> CallsItsCallee(m, s0, k)
    ensures forall k :: 0 <= k < |Leave(s, value).callers| ==> CallsItsCallee(m, Leave(s, value), k)
    ensures var a := s.callers[|s.callers| - 1].act;
      && a.func < |m.funcs| && a.pc < |m.funcs[a.func]|
      && m.funcs[a.func][a.pc].Call? && m.funcs[a.func][a.pc].func == s.act.func
  {
    var t := Leave(s, value);
    assert CallsItsCallee(m, s0, |s0.callers| - 1);
    forall k | 0 <= k < |t.callers|
      ensures CallsItsCallee(m, t, k)
    {
      assert CallsItsCallee(m, s0, k);
    }
  }

  lemma GuardedAt(m: Program, raised: seq<Errors>, f: nat)
    requires AllGuarded(m, raised) && f < |m.funcs|
    ensures |raised| == |m.funcs| && Guarded(m.funcs[f], raised, raised[f])
  {
  }

  lemma LeaveBack(m: Program, raised: seq<Errors>, entry: nat, s0: State, s: State, value: u64)
    requires Contained(m, raised, entry, s0) && s.status == Running && s.act == s0.act && s.callers == s0.callers
    requires s.unwinding ==> s.errorType in raised[s.act.func]
    requires s.callers != [] && forall k :: 0 <= k < |Leave(s, value).callers| ==> CallsItsCallee(m, Leave(s, value), k)
    requires var a := s.callers[|s.callers| - 1].act;
      && a.func < |m.funcs| && a.pc < |m.funcs[a.func]|
      && m.funcs[a.func][a.pc].Call? && m.funcs[a.func][a.pc].func == s.act.func
    ensures Contained(m, raised, entry, Leave(s, value))
  {
    hide CallsItsCallee;
    hide Guarded;
    hide Passing;
    hide AllGuarded;
    var a := s.callers[|s.callers| - 1].act;
    GuardedAt(m, raised, a.func);
    if s.unwinding {
      BackInCaller(m.funcs[a.func], a.pc, raised, raised[a.func], s.errorType);
    }
  }

  lemma BackInCaller(code: Code, i: nat, raised: seq<Errors>, own: Errors, atomid: nat)
    requires Guarded(code, raised, own) && i < |code| && code[i].Call?
    requires code[i].func < |raised| && atomid in raised[code[i].func]
    ensures Passing(code, raised, own, i + 1, atomid)
  {
    assert CallGuarded(code, i, raised, own);
    var hs, id :| GuardedBy(code, i, raised, own, hs, id);
    hide Dispatch;
    assert OnItsWay(code, i, raised, own, hs, id, i + 1, atomid);
  }

  // The same activation, anywhere, without error
  lemma CalmContained(m: Program, raised: seq<Errors>, entry: nat, s: State, t: State)
    requires Contained(m, raised, entry, s)
    requires t.callers == s.callers && t.act.func == s.act.func && !(t.unwinding && t.status == Running)
    requires t.status == Halted ==> !t.unwinding
    ensures Contained(m, raised, entry, t)
  {
    hide AllGuarded;
    forall k | 0 <= k < |t.callers|
      ensures CallsItsCallee(m, t, k)
    {
      assert CallsItsCallee(m, s, k);
    }
  }

  lemma EnterContained(m: Program, raised: seq<Errors>, entry: nat, s: State, lvid: nat, g: nat)
    requires Contained(m, raised, entry, s) && s.status == Running && !s.unwinding
    requires s.act.pc < |m.funcs[s.act.func]| && m.funcs[s.act.func][s.act.pc] == Call(lvid, g)
    ensures Contained(m, raised, entry, Enter(m, s, lvid, g))
  {
    var t := Enter(m, s, lvid, g);
    hide AllGuarded;
    if t.status.Fault? {
      CalmContained(m, raised, entry, s, t);
    } else {
      forall k | 0 <= k < |t.callers|
        ensures CallsItsCallee(m, t, k)
      {
        if k < |s.callers| {
          assert CallsItsCallee(m, s, k);
        }
      }
    }
  }

  lemma CalleeKept(m: Program, s: State, t: State, k: nat)
    requires t.callers == s.callers && t.act.func == s.act.func && k < |s.callers| && CallsItsCallee(m, s, k)
    ensures CallsItsCallee(m, t, k)
  {
  }

  // The cursor goes one step further on the way
  lemma AdvanceContained(m: Program, raised: seq<Errors>, entry: nat, s: State, t: State)
    requires Contained(m, raised, entry, s) && s.status == Running
    requires t.status == Running && t.callers == s.callers && t.act.func == s.act.func
    requires t.unwinding ==> s.unwinding && t.errorType == s.errorType && t.act.pc == s.act.pc + 1
    requires t.unwinding ==> s.act.pc < |m.funcs[s.act.func]| && var i := m.funcs[s.act.func][s.act.pc];
      i == ScopeEnd || i.Jzraise? || (i.Jmperrhandler? && i.atomid != 0 && i.atomid != s.errorType)
    ensures Contained(m, raised, entry, t)
  {
    hide Guarded;
    hide Passing;
    hide CallsItsCallee;
    forall k | 0 <= k < |t.callers|
      ensures CallsItsCallee(m, t, k)
    {
      CalleeKept(m, s, t, k);
    }
    if t.unwinding {
      PassingOn(m.funcs[s.act.func], raised, raised[s.act.func], s.act.pc, s.errorType);
    }
  }

  lemma PassingOn(code: Code, raised: seq<Errors>, own: Errors, pc: nat, atomid: nat)
    requires Passing(code, raised, own, pc, atomid) && pc < |code|
    requires var i := code[pc];
      i == ScopeEnd || i.Jzraise? || (i.Jmperrhandler? && i.atomid != 0 && i.atomid != atomid)
    ensures Passing(code, raised, own, pc + 1, atomid)
  {
    var i, hs, id :| OnItsWay(code, i, raised, own, hs, id, pc, atomid);
    WayCode(code, i, raised, own, hs, id, pc, atomid);
    WayOn(code, i, raised, own, hs, id, pc, atomid);
  }

  lemma WayOn(code: Code, i: nat, raised: seq<Errors>, own: Errors, hs: Stack, id: nat, pc: nat, atomid: nat)
    requires OnItsWay(code, i, raised, own, hs, id, pc, atomid) && |OnError(hs)| > 0
    requires pc >= i + 3 ==> var c := OnError(hs)[pc - (i + 3)];
      c == ScopeEnd || c.Jzraise? || (c.Jmperrhandler? && c.atomid != 0 && c.atomid != atomid)
    ensures OnItsWay(code, i, raised, own, hs, id, pc + 1, atomid)
  {
    hide At;
    hide Dispatch;
    if pc >= i + 3 {
      ChainOn(hs, pc - (i + 3), atomid);
    }
  }

  lemma ChainOn(hs: Stack, j: nat, atomid: nat)
    requires j < |OnError(hs)| && (!hs.IsEmpty() ==> hs.Select(atomid).Some? && j <= hs.Select(atomid).value)
    requires var c := OnError(hs)[j];
      c == ScopeEnd || c.Jzraise? || (c.Jmperrhandler? && c.atomid != 0 && c.atomid != atomid)
    ensures !hs.IsEmpty() && j < hs.Select(atomid).value < |OnError(hs)|
  {
    DispatchShape(hs, 0);
    hide OnError;
    hide Dispatch;
  }

  // An error leaves through 'ret': there is no handler, and the function has the errors of its callee
  lemma RetContained(m: Program, raised: seq<Errors>, entry: nat, s: State, lvid: nat, value: u64)
    requires Contained(m, raised, entry, s) && s.status == Running
    requires s.act.pc < |m.funcs[s.act.func]| && m.funcs[s.act.func][s.act.pc] == Ret(lvid)
    ensures Contained(m, raised, entry, Leave(s, value))
  {
    hide Guarded;
    if s.unwinding {
      RetErrors(m.funcs[s.act.func], raised, raised[s.act.func], s.act.pc, s.errorType);
    }
    LeaveContained(m, raised, entry, s, s, value);
  }

  lemma RetErrors(code: Code, raised: seq<Errors>, own: Errors, pc: nat, atomid: nat)
    requires Passing(code, raised, own, pc, atomid) && pc < |code| && code[pc].Ret?
    ensures atomid in own
  {
    var i, hs, id :| OnItsWay(code, i, raised, own, hs, id, pc, atomid);
    WayCode(code, i, raised, own, hs, id, pc, atomid);
    DispatchShape(hs, id);
    hide OnError;
    hide Dispatch;
    hide At;
  }

  // The instructions which may be visited while an error unwinds
  lemma ControlContained(m: Program, raised: seq<Errors>, entry: nat, s: State)
    requires Contained(m, raised, entry, s) && s.status == Running && s.act.pc < |m.funcs[s.act.func]|
    requires !IsPlain(m.funcs[s.act.func][s.act.pc]) && MaxLvid(m.funcs[s.act.func][s.act.pc]) < |s.act.regs|
    ensures Contained(m, raised, entry, Control(m, m.funcs[s.act.func], s))
  {
    var code := m.funcs[s.act.func];
    var t := Control(m, code, s);
    if s.unwinding {
      NeverAtLabel(m, raised, entry, s);
    }
    hide AllGuarded;
    hide Goto;
    match code[s.act.pc]
    case Call(lvid, g) => EnterContained(m, raised, entry, s, lvid, g);
    case Ret(lvid) => RetContained(m, raised, entry, s, lvid, s.act.regs[lvid]);
    case Raise(lvid, target, atomid) =>
      if target == 0 {
        RaiseContained(m, raised, entry, s, lvid, atomid);
      } else {
        CalmContained(m, raised, entry, s, t);
      }
    case Jzraise(_) =>
      if s.unwinding {
        AdvanceContained(m, raised, entry, s, t);
      } else {
        CalmContained(m, raised, entry, s, t);
      }
    case Jmperrhandler(_, _) =>
      if t.status == Running {
        AdvanceContained(m, raised, entry, s, t);
      } else {
        CalmContained(m, raised, entry, s, t);
      }
    case _ => CalmContained(m, raised, entry, s, t);
  }

  lemma RaiseContained(m: Program, raised: seq<Errors>, entry: nat, s: State, lvid: nat, atomid: nat)
    requires Contained(m, raised, entry, s) && s.status == Running && s.act.pc < |m.funcs[s.act.func]|
    requires m.funcs[s.act.func][s.act.pc] == Raise(lvid, 0, atomid) && lvid < |s.act.regs|
    ensures Contained(m, raised, entry, Control(m, m.funcs[s.act.func], s))
  {
    var r := s.(error := s.act.regs[lvid], errorType := atomid, unwinding := true);
    assert Guarded(m.funcs[s.act.func], raised, raised[s.act.func]);
    hide Guarded;
    LeaveContained(m, raised, entry, s, r, 0);
  }

  lemma StepContained(m: Program, raised: seq<Errors>, entry: nat, s: State)
    requires Contained(m, raised, entry, s)
    ensures Contained(m, raised, entry, Step(m, s))
  {
    hide Guarded;
    if s.status == Running {
      var t := Step(m, s);
      if s.unwinding {
        NeverAtLabel(m, raised, entry, s);
      }
      if s.act.pc >= |m.funcs[s.act.func]| {
        LeaveContained(m, raised, entry, s, s, s.retval);
      } else if MaxLvid(m.funcs[s.act.func][s.act.pc]) >= |s.act.regs| {
        CalmContained(m, raised, entry, s, t);
      } else if IsPlain(m.funcs[s.act.func][s.act.pc]) {
        PlainContained(m, raised, entry, s);
      } else {
        ControlContained(m, raised, entry, s);
      }
    }
  }

  lemma PlainContained(m: Program, raised: seq<Errors>, entry: nat, s: State)
    requires Contained(m, raised, entry, s) && s.status == Running && s.act.pc < |m.funcs[s.act.func]|
    requires IsPlain(m.funcs[s.act.func][s.act.pc]) && MaxLvid(m.funcs[s.act.func][s.act.pc]) < |s.act.regs|
    ensures Contained(m, raised, entry, Plain(m, m.funcs[s.act.func][s.act.pc], s))
  {
    var t := Plain(m, m.funcs[s.act.func][s.act.pc], s);
    if s.unwinding {
      NeverAtLabel(m, raised, entry, s);
    }
    hide AllGuarded;
    if t.status == Running {
      AdvanceContained(m, raised, entry, s, t);
    } else {
      CalmContained(m, raised, entry, s, t);
    }
  }

  lemma {:induction false} RunContained(m: Program, raised: seq<Errors>, entry: nat, s: State, k: nat)
    requires Contained(m, raised, entry, s)
    ensures Contained(m, raised, entry, StepN(m, s, k))
    decreases k
  {
    hide Contained;
    hide Step;
    if k > 0 {
      StepContained(m, raised, entry, s);
      RunContained(m, raised, entry, Step(m, s), k - 1);
    }
  }

  // ---- whole programs ----

  lemma AcceptedIsGuarded(p: seq<Func>, m: Program)
    requires Accepted(p) && Steady(p) && m.funcs == EmitAll(p)
    ensures AllGuarded(m, Raises(p))
  {
    SteadyIsSettled(p);
    forall f | 0 <= f < |m.funcs|
      ensures Guarded(m.funcs[f], Raises(p), Raises(p)[f])
    {
      FuncGuarded(p, f);
    }
  }

  lemma FuncGuarded(p: seq<Func>, f: nat)
    requires Settled(p) && f < |p|
    ensures Guarded(EmitFunc(p[f]), Raises(p), Raises(p)[f])
  {
    var known := Raises(p)[..f + 1];
    var c := Ctx(Parameters(p[f].params), NO_HANDLER);
    BareShield();
    SafeSame(WholeBody(p[f]), known, Raises(p)[f], BARE, c);
    hide Safe;
    hide WholeBody;
    StmtGuarded(WholeBody(p[f]), c, FirstId(p[f]), known, Raises(p)[f]);
    hide Guarded;
    hide EmitStmt;
    QuietOp(Stacksize(EmitBody(p[f]).n + 1));
    After([Stacksize(EmitBody(p[f]).n + 1)], EmitBody(p[f]).code, known, Raises(p)[f]);
    MoreKnown(EmitFunc(p[f]), Raises(p), f + 1, Raises(p)[f]);
  }

  lemma MoreKnown(code: Code, raised: seq<Errors>, f: nat, own: Errors)
    requires f <= |raised| && Guarded(code, raised[..f], own)
    ensures Guarded(code, raised, own)
  {
    forall i | 0 <= i < |code| && code[i].Call?
      ensures CallGuarded(code, i, raised, own)
    {
      assert CallGuarded(code, i, raised[..f], own);
      var hs, id :| GuardedBy(code, i, raised[..f], own, hs, id);
      assert GuardedBy(code, i, raised, own, hs, id);
    }
  }

  lemma BootContained(p: seq<Func>, m: Program, g: nat, vs: seq<u64>)
    requires Accepted(p) && Steady(p) && m.funcs == EmitAll(p) && g < |p| && |vs| == |p[g].params|
    requires EmitBody(p[g]).n > |vs|
    ensures Contained(m, Raises(p), g, Boot(p, m, g, vs))
  {
    AcceptedIsGuarded(p, m);
    hide AllGuarded;
    hide EmitBody;
  }

  // In every run of an accepted and steady program: the flag is clear at every label, and the program never ends with
  // an error which was not predicted
  lemma OnlyPredictedErrors(p: seq<Func>, m: Program, g: nat, vs: seq<u64>, k: nat)
    requires Accepted(p) && Steady(p) && m.funcs == EmitAll(p) && g < |p| && |vs| == |p[g].params|
    requires EmitBody(p[g]).n > |vs|
    ensures var t := StepN(m, Boot(p, m, g, vs), k);
      && (t.status == Halted && t.unwinding ==> t.errorType in Raises(p)[g])
      && (t.status == Running && AtLabel(m, t) ==> !t.unwinding)
  {
    BootContained(p, m, g, vs);
    RunContained(m, Raises(p), g, Boot(p, m, g, vs), k);
    var t := StepN(m, Boot(p, m, g, vs), k);
    if t.status == Running && t.unwinding {
      NeverAtLabel(m, Raises(p), g, t);
    }
  }

  // An entry point without predicted error never ends with an error
  lemma EntryIsSafe(p: seq<Func>, m: Program, g: nat, vs: seq<u64>, k: nat)
    requires Accepted(p) && Steady(p) && m.funcs == EmitAll(p) && g < |p| && |vs| == |p[g].params|
    requires EmitBody(p[g]).n > |vs|
    requires Raises(p)[g] == {}
    ensures var t := StepN(m, Boot(p, m, g, vs), k);
      !(t.status == Halted && t.unwinding)
  {
    OnlyPredictedErrors(p, m, g, vs, k);
  }

  // Whenever a function is left with an error, at any depth, this error was predicted for this function
  lemma FunctionsLetOutPredicted(p: seq<Func>, m: Program, g: nat, vs: seq<u64>, k: nat)
    requires Accepted(p) && Steady(p) && m.funcs == EmitAll(p) && g < |p| && |vs| == |p[g].params|
    requires EmitBody(p[g]).n > |vs|
    ensures var s := StepN(m, Boot(p, m, g, vs), k);
      var t := Step(m, s);
      s.act.func < |p| && (|t.callers| < |s.callers| && t.unwinding ==> t.errorType in Raises(p)[s.act.func])
  {
    BootContained(p, m, g, vs);
    RunContained(m, Raises(p), g, Boot(p, m, g, vs), k);
    hide Boot;
    hide EmitBody;
    var s := StepN(m, Boot(p, m, g, vs), k);
    LeftWith(m, Raises(p), g, s);
  }

  lemma LeftWith(m: Program, raised: seq<Errors>, entry: nat, s: State)
    requires Contained(m, raised, entry, s)
    ensures var t := Step(m, s);
      |t.callers| < |s.callers| && t.unwinding ==> t.errorType in raised[s.act.func]
  {
    var t := Step(m, s);
    if |t.callers| < |s.callers| && t.unwinding && s.status == Running {
      var code := m.funcs[s.act.func];
      assert Guarded(code, raised, raised[s.act.func]);
      if s.unwinding {
        NeverAtLabel(m, raised, entry, s);
        LeftByRet(m, s);
        hide Guarded;
        RetErrors(code, raised, raised[s.act.func], s.act.pc, s.errorType);
      } else {
        LeftByRaise(m, s);
      }
    }
  }

  // Only these instructions leave a function
  lemma LeftByRet(m: Program, s: State)
    requires s.status == Running && s.unwinding && s.act.func < |m.funcs| && s.act.pc < |m.funcs[s.act.func]|
    requires var i := m.funcs[s.act.func][s.act.pc];
      i == ScopeEnd || i.Jzraise? || i.Jmperrhandler? || i == Ret(0)
    requires |Step(m, s).callers| < |s.callers|
    ensures m.funcs[s.act.func][s.act.pc] == Ret(0) && Step(m, s).errorType == s.errorType
  {
    hide Goto;
  }

  lemma LeftByRaise(m: Program, s: State)
    requires s.status == Running && !s.unwinding && s.act.func < |m.funcs|
    requires |Step(m, s).callers| < |s.callers| && Step(m, s).unwinding
    ensures s.act.pc < |m.funcs[s.act.func]|
    ensures var i := m.funcs[s.act.func][s.act.pc];
      i.Raise? && i.target == 0 && Step(m, s).errorType == i.atomid
  {
    hide Goto;
  }
}
