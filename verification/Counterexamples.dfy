// Small programs for which the code does something else than what is written: an 'else' branch, the end of a loop and
// the code protected by a handler which are never reached, and an error which goes past the handlers of a function
// which calls itself.
module Counterexamples {
  import opened Isa
  import opened Jumps
  import opened Machine
  import opened Handlers
  import opened Source
  import opened Emitter
  import opened Layout
  import opened Untidy
  import opened Dispatching
  import opened Correspondence
  import opened Expressions
  import opened Preservation
  import opened Effects

  // A block which registers a handler of any error, and nothing else
  const GUARDED: Stmt := OnFail(0, 0, Skip, Skip)

  function Procedure(body: Stmt): seq<Func> { [Func([], body, Const(0))] }

  lemma ProcedureRuns(body: Stmt, fuel: nat)
    ensures var o := RunStmt(Procedure(body), body, map[], BARE, [], fuel);
      RunFunc(Procedure(body), 0, [], [], fuel + 1) == if o.Normal? then Returned(0, o.trace) else o
  {
    var p := Procedure(body);
    assert Bind([], []) == map[];
    var o := RunStmt(p, body, map[], BARE, [], fuel);
    if o.Normal? {
      assert RunStmt(p, Return(Const(0)), o.env, BARE, o.trace, fuel) == Returned(0, o.trace);
    }
  }

  lemma ProcedureDoes(body: Stmt)
    ensures DoesAll(Procedure(body)) == Procedure(Does(body))
  {
  }

  lemma ProcedureGood(body: Stmt)
    requires GoodStmt(Procedure(body), body, {}, BARE)
    ensures GoodProgram(Procedure(body))
  {
    var p := Procedure(body);
    var names := set x | x in p[0].params;
    assert names == {};
    GoodSame(p, WholeBody(p[0]), {}, names, BARE, BARE);
  }

  // The code of a procedure does what another one means
  lemma ProcedureEnds(body: Stmt, m: Program, fuel: nat) returns (k: nat)
    requires m.funcs == EmitAll(Procedure(body)) && GoodStmt(Procedure(body), body, {}, BARE)
    ensures GoodProgram(Procedure(body)) && EmitBody(Procedure(body)[0]).n > 0
    ensures Finished(m, StepN(m, Boot(Procedure(body), m, 0, []), k), RunFunc(Procedure(Does(body)), 0, [], [], fuel))
  {
    hide *;
    ProcedureIs(body);
    ProcedureGood(body);
    ProcedureDoes(body);
    k := CodeDoes(Procedure(body), m, 0, [], fuel);
  }

  lemma ProcedureIs(body: Stmt)
    ensures |Procedure(body)| == 1 && |Procedure(body)[0].params| == 0
  {
  }

  // if false { on scope fail {} } else { observe 1 }: the event never comes
  const LOST_ELSE: Stmt := IfElse(Const(0), GUARDED, Observe(7, Const(1)))

  lemma ElseMeans(q: seq<Func>)
    ensures GoodStmt(q, LOST_ELSE, {}, BARE) && Does(LOST_ELSE) == If(Const(0), GUARDED)
    ensures RunStmt(q, LOST_ELSE, map[], BARE, [], 0) == Normal(map[], [Event(7, [1])])
    ensures RunStmt(q, If(Const(0), GUARDED), map[], BARE, [], 0) == Normal(map[], [])
  {
  }

  lemma ElseIsLost(m: Program) returns (k: nat)
    requires m.funcs == EmitAll(Procedure(LOST_ELSE))
    ensures GoodProgram(Procedure(LOST_ELSE)) && EmitBody(Procedure(LOST_ELSE)[0]).n > 0
    ensures RunFunc(Procedure(LOST_ELSE), 0, [], [], 1) == Returned(0, [Event(7, [1])])
    ensures Finished(m, StepN(m, Boot(Procedure(LOST_ELSE), m, 0, []), k), Returned(0, []))
  {
    hide *;
    ElseMeans(Procedure(LOST_ELSE));
    ElseMeans(Procedure(If(Const(0), GUARDED)));
    ProcedureRuns(LOST_ELSE, 0);
    ProcedureRuns(If(Const(0), GUARDED), 0);
    k := ProcedureEnds(LOST_ELSE, m, 1);
  }

  // on scope fail { on scope fail {} } observe 1: the event never comes
  const LOST_CODE: Stmt := OnFail(0, 0, GUARDED, Observe(7, Const(1)))

  lemma CodeMeans(q: seq<Func>)
    ensures GoodStmt(q, LOST_CODE, {}, BARE) && Does(LOST_CODE) == Skip
    ensures RunStmt(q, LOST_CODE, map[], BARE, [], 0) == Normal(map[], [Event(7, [1])])
    ensures RunStmt(q, Skip, map[], BARE, [], 0) == Normal(map[], [])
  {
  }

  lemma ProtectedIsLost(m: Program) returns (k: nat)
    requires m.funcs == EmitAll(Procedure(LOST_CODE))
    ensures GoodProgram(Procedure(LOST_CODE)) && EmitBody(Procedure(LOST_CODE)[0]).n > 0
    ensures RunFunc(Procedure(LOST_CODE), 0, [], [], 1) == Returned(0, [Event(7, [1])])
    ensures Finished(m, StepN(m, Boot(Procedure(LOST_CODE), m, 0, []), k), Returned(0, []))
  {
    hide *;
    CodeMeans(Procedure(LOST_CODE));
    CodeMeans(Procedure(Skip));
    ProcedureRuns(LOST_CODE, 0);
    ProcedureRuns(Skip, 0);
    k := ProcedureEnds(LOST_CODE, m, 1);
  }

  // while false { on scope fail {} }: the machine never stops
  const LOST_END: Stmt := While(Const(0), GUARDED)

  lemma EndMeans(q: seq<Func>)
    ensures GoodStmt(q, LOST_END, {}, BARE) && Does(LOST_END) == While(Const(1), If(Const(0), GUARDED))
    ensures RunStmt(q, LOST_END, map[], BARE, [], 1) == Normal(map[], [])
  {
  }

  lemma {:induction false} LoopTimesOut(q: seq<Func>, env: Env, fuel: nat)
    ensures RunStmt(q, Does(LOST_END), env, BARE, [], fuel) == StmtExit(Timeout, env, [])
    decreases fuel
  {
    EndMeans(q);
    if fuel > 0 {
      LoopTimesOut(q, env, fuel - 1);
      assert RunStmt(q, If(Const(0), GUARDED), env, BARE, [], fuel) == Normal(env, []);
    }
  }

  lemma EndTimesOut(fuel: nat)
    ensures TimedOut(RunFunc(DoesAll(Procedure(LOST_END)), 0, [], [], fuel))
  {
    hide RunStmt;
    hide DoesAll;
    ProcedureDoes(LOST_END);
    if fuel > 0 {
      ProcedureRuns(Does(LOST_END), fuel - 1);
      LoopTimesOut(DoesAll(Procedure(LOST_END)), map[], fuel - 1);
    }
  }

  lemma TimedOutKeeps(out: StmtOut)
    requires TimedOut(out)
    ensures !Loses(out)
  {
  }

  lemma EndIsLost(m: Program, k: nat)
    requires m.funcs == EmitAll(Procedure(LOST_END))
    ensures GoodProgram(Procedure(LOST_END)) && EmitBody(Procedure(LOST_END)[0]).n > 0
    ensures RunFunc(Procedure(LOST_END), 0, [], [], 2) == Returned(0, [])
    ensures StepN(m, Boot(Procedure(LOST_END), m, 0, []), k).status == Running
  {
    hide *;
    var p := Procedure(LOST_END);
    EndMeans(p);
    ProcedureIs(LOST_END);
    ProcedureGood(LOST_END);
    ProcedureRuns(LOST_END, 1);
    forall fuel: nat
      ensures TimedOut(RunFunc(DoesAll(p), 0, [], [], fuel)) && !Loses(RunFunc(DoesAll(p), 0, [], [], fuel))
    {
      EndTimesOut(fuel);
      TimedOutKeeps(RunFunc(DoesAll(p), 0, [], [], fuel));
    }
    NeverStops(p, m, 0, []);
  }

  // ---- a function which calls itself ----

  // func f(n) { if n { on scope fail(e: A) {} f(0); } raise B; }
  const CALL: Expr := Apply(0, More(Const(0), NoArgs))
  const PROTECTED_CALL: Stmt := OnFail(1, 2, Skip, Eval(CALL))
  const SELF_CALL: Stmt := Seq(If(Var(1), PROTECTED_CALL), Throw(2, Const(5)))
  const SELF: seq<Func> := [Func([1], SELF_CALL, Const(0))]

  lemma CallGood()
    ensures GoodStmt(SELF, PROTECTED_CALL, {1}, BARE)
  {
    var h := BARE.With(1);
    var call := CALL;
    assert GoodArgs(SELF, call.args, {1}) && Arity(NoArgs) == 0 && Arity(call.args) == 1;
    assert GoodStmt(SELF, Eval(call), {1}, h) && GoodStmt(SELF, Skip, {1} + {2}, BARE);
    assert CanRegister(BARE, 1);
    hide CanRegister;
    hide GoodExpr;
  }

  lemma SelfGood()
    ensures GoodProgram(SELF) && TidyProgram(SELF)
  {
    CallGood();
    var names := set x | x in SELF[0].params;
    assert names == {1};
    assert GoodStmt(SELF, SELF_CALL, {1}, BARE);
    assert GoodStmt(SELF, WholeBody(SELF[0]), {1}, BARE);
    GoodSame(SELF, WholeBody(SELF[0]), {1}, names, BARE, BARE);
    hide GoodStmt;
    assert Tidy(PROTECTED_CALL);
  }

  lemma CallChecked()
    ensures StmtChecked(PROTECTED_CALL, [], BARE, {}) && StmtOwn(PROTECTED_CALL, [], BARE, {}) == {}
  {
    var h := BARE.With(1);
    var call := CALL;
    assert ArgsOwn(call.args, [], h, {}) == {} && ArgsChecked(call.args, [], h, {});
    assert ExprOwn(call, [], h, {}) == {} && ExprChecked(call, [], h, {});
    assert StmtChecked(Eval(call), [], h, {}) && StmtOwn(Eval(call), [], h, {}) == {};
    assert CanRegister(BARE, 1);
    hide ExprChecked;
    hide ExprOwn;
  }

  lemma SelfChecked()
    ensures StmtChecked(WholeBody(SELF[0]), [], BARE, {}) && StmtOwn(WholeBody(SELF[0]), [], BARE, {}) == {2}
  {
    CallChecked();
    var test := If(Var(1), PROTECTED_CALL);
    assert StmtChecked(test, [], BARE, {}) && StmtOwn(test, [], BARE, {}) == {};
    assert StmtChecked(SELF_CALL, [], BARE, {}) && StmtOwn(SELF_CALL, [], BARE, {}) == {2};
  }

  // The errors of the function are not known yet at the call: nothing asks for a handler of B
  lemma SelfAccepted()
    ensures Accepted(SELF) && Raises(SELF) == [{2}]
  {
    SelfChecked();
    hide StmtChecked;
    hide StmtOwn;
    hide WholeBody;
    assert SELF[..0] == [] && Raises([]) == [];
    assert Raises(SELF)[..0] == [];
  }

  lemma CallNotSteady()
    ensures !StmtSteady(PROTECTED_CALL, 0, {2}, BARE)
  {
    var h := BARE.With(1);
    assert Choose(h.types, h.any, 2).None? && 2 in {2};
    assert !Covers(h, {2});
  }

  lemma SelfNotSteady()
    ensures !Steady(SELF)
  {
    SelfAccepted();
    CallNotSteady();
    hide Accepted;
    hide Raises;
    assert !StmtSteady(SELF_CALL, 0, {2}, BARE);
    assert !StmtSteady(WholeBody(SELF[0]), 0, {2}, BARE);
  }

  lemma SelfInner()
    ensures RunFunc(SELF, 0, [0], [], 1).StmtExit? && RunFunc(SELF, 0, [0], [], 1).exit == Unwound(2, 5)
    ensures RunFunc(SELF, 0, [0], [], 1).trace == []
  {
    var env := Bind([1], [0]);
    assert env == Bind([], [])[1 := 0];
    assert RunStmt(SELF, If(Var(1), PROTECTED_CALL), env, BARE, [], 0) == Normal(env, []);
    assert RunStmt(SELF, Throw(2, Const(5)), env, BARE, [], 0) == StmtExit(Unwound(2, 5), env, []);
    assert RunStmt(SELF, SELF_CALL, env, BARE, [], 0) == StmtExit(Unwound(2, 5), env, []);
  }

  lemma ArgumentRuns(env: Env, h: Shield)
    ensures RunArgs(SELF, CALL.args, env, h, [], 2) == Values([0], [])
  {
    assert RunArgs(SELF, NoArgs, env, h, [], 2) == Values([], []);
    assert [0] + [] == [0];
  }

  lemma ExprLoses(env: Env)
    ensures RunExpr(SELF, CALL, env, BARE.With(1), [], 2) == ExprExit(Leaked, [])
  {
    var h := BARE.With(1);
    ArgumentRuns(env, h);
    UnfoldApply(SELF, CALL, env, h, [], 2);
    SelfInner();
    hide RunArgs;
    hide RunExpr;
    hide RunFunc;
    assert Choose(h.types, h.any, 2).None?;
  }

  lemma CallLoses(env: Env)
    ensures RunStmt(SELF, PROTECTED_CALL, env, BARE, [], 2) == StmtExit(Leaked, env, [])
  {
    ExprLoses(env);
    hide RunExpr;
    assert RunStmt(SELF, Eval(CALL), env, BARE.With(1), [], 2) == StmtExit(Leaked, env, []);
  }

  lemma SelfLoses()
    ensures Loses(RunFunc(SELF, 0, [1], [], 3))
  {
    var env := Bind([1], [1]);
    assert env == Bind([], [])[1 := 1];
    CallLoses(env);
    hide Bind;
    assert RunStmt(SELF, SELF_CALL, env, BARE, [], 2) == StmtExit(Leaked, env, []);
  }

  // The program is accepted, and a label is visited with the flag set
  lemma SelfCallLosesError(m: Program) returns (k: nat)
    requires m.funcs == EmitAll(SELF)
    ensures GoodProgram(SELF) && TidyProgram(SELF) && Accepted(SELF) && !Steady(SELF) && EmitBody(SELF[0]).n > 1
    ensures Lost(m, StepN(m, Boot(SELF, m, 0, [1]), k))
  {
    hide *;
    SelfIs();
    SelfGood();
    SelfAccepted();
    SelfNotSteady();
    SelfLoses();
    k := MeaningPreserved(SELF, m, 0, [1], 3);
    LosesMeans(m, StepN(m, Boot(SELF, m, 0, [1]), k), RunFunc(SELF, 0, [1], [], 3));
  }

  lemma SelfIs()
    ensures |SELF| == 1 && |SELF[0].params| == 1
  {
  }

  lemma LosesMeans(m: Program, t: State, out: StmtOut)
    requires Finished(m, t, out) && Loses(out)
    ensures Lost(m, t)
  {
  }
}
