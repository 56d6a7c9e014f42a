// The meaning of an accepted program: no error is left without handler, and a function lets out the predicted
// errors only.
module Soundness {
  import opened Isa
  import opened Machine
  import opened Handlers
  import opened Source
  import opened Emitter
  import opened Untidy
  import opened Correspondence
  import opened Expressions
  import opened Simple
  import opened Statements
  import opened Preservation
  import opened Effects

  // What may come out under the handlers 'h'
  predicate Predicted(x: Exit, own: Errors, h: Shield) {
    match x
    case Leaked => false
    case Unwound(atomid, _) => atomid in own
    case Caught(k, _) => k < |h.types| + if h.any then 1 else 0
    case _ => true
  }

  predicate ExprPredicted(o: ExprOut, own: Errors, h: Shield) { o.ExprExit? ==> Predicted(o.exit, own, h) }

  predicate ArgsPredicted(o: ArgsOut, own: Errors, h: Shield) { o.ArgsExit? ==> Predicted(o.exit, own, h) }

  predicate StmtPredicted(o: StmtOut, own: Errors, h: Shield) { o.StmtExit? ==> Predicted(o.exit, own, h) }

  // Accepted, in the function 'f', which calls itself and the functions before it
  predicate FineExpr(p: seq<Func>, f: nat, e: Expr, h: Shield, own: Errors) {
    f < |p| && ExprAccepted(e, Raises(p)[..f + 1], h) && ExprLeaks(e, Raises(p)[..f + 1], h) <= own
  }

  predicate FineArgs(p: seq<Func>, f: nat, args: Args, h: Shield, own: Errors) {
    && f < |p| && KnownArgs(args, Raises(p)[..f + 1]) && Covers(h, ArgsErrors(args, Raises(p)[..f + 1]))
    && (h.IsEmpty() ==> ArgsErrors(args, Raises(p)[..f + 1]) <= own)
  }

  predicate FineStmt(p: seq<Func>, f: nat, s: Stmt, h: Shield, own: Errors) {
    f < |p| && StmtAccepted(s, Raises(p)[..f + 1], h) && StmtLeaks(s, Raises(p)[..f + 1], h) <= own
  }

  lemma FineParts(p: seq<Func>, f: nat, e: Expr, h: Shield, own: Errors)
    requires FineExpr(p, f, e, h, own)
    ensures e.Not? ==> FineExpr(p, f, e.e, h, own)
    ensures e.Bin? || e.Both? || e.Either? ==> FineExpr(p, f, e.l, h, own) && FineExpr(p, f, e.r, h, own)
    ensures e.Choice? ==> FineExpr(p, f, e.c, h, own) && FineExpr(p, f, e.t, h, own) && FineExpr(p, f, e.e, h, own)
    ensures e.Apply? ==> FineArgs(p, f, e.args, h, own) && e.f <= f && Covers(h, Raises(p)[e.f])
    ensures e.Apply? && h.IsEmpty() ==> Raises(p)[e.f] <= own
    ensures f < |p|
  {
    hide Raises;
    if e.Apply? {
      assert Raises(p)[..f + 1][e.f] == Raises(p)[e.f];
    }
  }

  // ---- expressions ----

  lemma OutMeans(op: BinOp, a: u64, o: ExprOut, own: Errors, h: Shield)
    ensures ExprPredicted(o, own, h) ==> ExprPredicted(NotOut(o), own, h) && ExprPredicted(BinOut(op, a, o), own, h)
    ensures o.Value? ==> ExprPredicted(o, own, h)
  {
  }

  lemma {:induction false} ExprSound(p: seq<Func>, f: nat, e: Expr, env: Env, h: Shield, trace: seq<Event>, fuel: nat,
                                     own: Errors)
    requires Settled(p) && FineExpr(p, f, e, h, own)
    ensures ExprPredicted(RunExpr(p, e, env, h, trace, fuel), own, h)
    decreases fuel, 4, e, 1
  {
    hide *;
    FineParts(p, f, e, h, own);
    UnfoldRun(p, e, env, h, trace, fuel);
    match e
    case Const(_) => LeafSound(p, e, env, h, trace, fuel, own);
    case Var(_) => LeafSound(p, e, env, h, trace, fuel, own);
    case Not(e1) =>
      ExprSound(p, f, e1, env, h, trace, fuel, own);
      OutMeans(Add, 0, RunExpr(p, e1, env, h, trace, fuel), own, h);
    case Bin(op, _, _) => SecondSound(p, f, e, op, env, h, trace, fuel, own);
    case Both(l, _, _) =>
      SecondSound(p, f, e, BitAnd, env, h, trace, fuel, own);
      OutMeans(Add, 0, Value(0, RunExpr(p, l, env, h, trace, fuel).trace), own, h);
    case Either(l, _, _) =>
      SecondSound(p, f, e, BitOr, env, h, trace, fuel, own);
      OutMeans(Add, 0, Value(1, RunExpr(p, l, env, h, trace, fuel).trace), own, h);
    case Choice(c, t, e1) =>
      var o := RunExpr(p, c, env, h, trace, fuel);
      ExprSound(p, f, c, env, h, trace, fuel, own);
      if o.Value? {
        ExprSound(p, f, if o.v != 0 then t else e1, env, h, o.trace, fuel, own);
      }
    case Apply(g, args) =>
      UnfoldApply(p, e, env, h, trace, fuel);
      var o := RunArgs(p, args, env, h, trace, fuel);
      ArgsSound(p, f, args, env, h, trace, fuel, own);
      ArgsMeans(o, own, h);
      if o.Values? && fuel > 0 {
        FuncSound(p, g, o.vs, o.trace, fuel - 1);
        CallSound(h, RunFunc(p, g, o.vs, o.trace, fuel - 1), Raises(p)[g], own);
      }
  }

  lemma LeafSound(p: seq<Func>, e: Expr, env: Env, h: Shield, trace: seq<Event>, fuel: nat, own: Errors)
    requires e.Const? || e.Var?
    ensures ExprPredicted(RunExpr(p, e, env, h, trace, fuel), own, h)
  {
  }

  lemma SecondSound(p: seq<Func>, f: nat, e: Expr, op: BinOp, env: Env, h: Shield, trace: seq<Event>, fuel: nat,
                    own: Errors)
    requires e.Bin? || e.Both? || e.Either?
    requires Settled(p) && FineExpr(p, f, e.l, h, own) && FineExpr(p, f, e.r, h, own)
    ensures var o := RunExpr(p, e.l, env, h, trace, fuel);
      && ExprPredicted(o, own, h)
      && (o.Value? ==> ExprPredicted(BinOut(op, o.v, RunExpr(p, e.r, env, h, o.trace, fuel)), own, h))
    decreases fuel, 4, e, 0
  {
    hide *;
    var o := RunExpr(p, e.l, env, h, trace, fuel);
    ExprSound(p, f, e.l, env, h, trace, fuel, own);
    if o.Value? {
      ExprSound(p, f, e.r, env, h, o.trace, fuel, own);
      OutMeans(op, o.v, RunExpr(p, e.r, env, h, o.trace, fuel), own, h);
    }
  }

  lemma ArgsMeans(o: ArgsOut, own: Errors, h: Shield)
    requires ArgsPredicted(o, own, h)
    ensures o.ArgsExit? ==> ExprPredicted(ExprExit(o.exit, o.trace), own, h)
    ensures ExprPredicted(ExprExit(Timeout, o.trace), own, h)
  {
  }

  // An error of a call is handled, or it is one of the errors of the caller
  lemma CallSound(h: Shield, o: StmtOut, raised: Errors, own: Errors)
    requires StmtPredicted(o, raised, BARE) && Covers(h, raised) && (h.IsEmpty() ==> raised <= own)
    ensures ExprPredicted(CallOut(h, o), own, h)
  {
  }

  lemma {:induction false} ArgsSound(p: seq<Func>, f: nat, args: Args, env: Env, h: Shield, trace: seq<Event>,
                                     fuel: nat, own: Errors)
    requires Settled(p) && FineArgs(p, f, args, h, own)
    ensures ArgsPredicted(RunArgs(p, args, env, h, trace, fuel), own, h)
    decreases fuel, 4, args, 1
  {
    hide Settled;
    hide Raises;
    hide RunExpr;
    if args.More? {
      var o := RunExpr(p, args.e, env, h, trace, fuel);
      ExprSound(p, f, args.e, env, h, trace, fuel, own);
      if o.Value? {
        ArgsSound(p, f, args.rest, env, h, o.trace, fuel, own);
      }
    }
  }

  // ---- statements ----

  // A function lets out the predicted errors only, and none of its errors is lost
  lemma FuncSound(p: seq<Func>, g: nat, vs: seq<u64>, trace: seq<Event>, fuel: nat)
    requires Settled(p) && g < |p|
    ensures StmtPredicted(RunFunc(p, g, vs, trace, fuel), Raises(p)[g], BARE)
    decreases fuel, 2, Skip, 1
  {
    hide Raises;
    hide RunStmt;
    hide StmtAccepted;
    hide StmtLeaks;
    hide WholeBody;
    if fuel > 0 && |vs| == |p[g].params| {
      assert FineStmt(p, g, WholeBody(p[g]), BARE, Raises(p)[g]);
      StmtSound(p, g, WholeBody(p[g]), Bind(p[g].params, vs), BARE, trace, fuel - 1, Raises(p)[g]);
    }
  }

  lemma FineStmtParts(p: seq<Func>, f: nat, s: Stmt, h: Shield, own: Errors)
    requires FineStmt(p, f, s, h, own)
    ensures s.Block? ==> FineStmt(p, f, s.s, h, own)
    ensures s.Seq? ==> FineStmt(p, f, s.a, h, own) && FineStmt(p, f, s.b, h, own)
    ensures s.Let? ==> FineExpr(p, f, s.e, h, own) && FineStmt(p, f, s.s, h, own)
    ensures IsSimple(s) ==> FineExpr(p, f, s.e, h, own)
    ensures s.Throw? ==> Covers(h, {s.atomid}) && (h.IsEmpty() ==> s.atomid in own)
    ensures s.If? ==> FineExpr(p, f, s.c, h, own) && FineStmt(p, f, s.t, h, own)
    ensures s.IfElse? ==> FineExpr(p, f, s.c, h, own) && FineStmt(p, f, s.t, h, own) && FineStmt(p, f, s.f, h, own)
    ensures s.While? || s.DoWhile? ==> FineExpr(p, f, s.c, h, own) && FineStmt(p, f, s.s, h, own)
    ensures s.OnFail? ==>
      CanRegister(h, s.atomid) && FineStmt(p, f, s.h, h, own) && FineStmt(p, f, s.s, h.With(s.atomid), own)
  {
    hide Raises;
    hide ExprAccepted;
    hide ExprLeaks;
    hide CanRegister;
  }

  lemma EndsPredicted(o: StmtOut, own: Errors, h: Shield)
    ensures !o.StmtExit? ==> StmtPredicted(o, own, h)
    ensures o.StmtExit? && o.exit == Timeout ==> StmtPredicted(o, own, h)
  {
  }

  lemma ExitPredicted(o: ExprOut, env: Env, own: Errors, h: Shield)
    ensures o.ExprExit? && ExprPredicted(o, own, h) ==> StmtPredicted(StmtExit(o.exit, env, o.trace), own, h)
  {
  }

  lemma SimplePredicted(s: Stmt, env: Env, h: Shield, o: ExprOut, own: Errors)
    requires ExprPredicted(o, own, h) && (s.Throw? ==> Covers(h, {s.atomid}) && (h.IsEmpty() ==> s.atomid in own))
    ensures StmtPredicted(SimpleOut(s, env, h, o), own, h)
  {
  }

  lemma HidePredicted(o: StmtOut, x: nat, outer: Env, own: Errors, h: Shield)
    requires StmtPredicted(o, own, h)
    ensures StmtPredicted(Hide(o, x, outer), own, h)
  {
  }

  lemma {:induction false} StmtSound(p: seq<Func>, f: nat, s: Stmt, env: Env, h: Shield, trace: seq<Event>, fuel: nat,
                                     own: Errors)
    requires Settled(p) && FineStmt(p, f, s, h, own)
    ensures StmtPredicted(RunStmt(p, s, env, h, trace, fuel), own, h)
    decreases fuel, 5, s, 1
  {
    hide *;
    IsScopeStmt(s);
    FineStmtParts(p, f, s, h, own);
    if IsSimple(s) {
      UnfoldSimpleRun(p, s, env, h, trace, fuel);
      ExprSound(p, f, s.e, env, h, trace, fuel, own);
      SimplePredicted(s, env, h, RunExpr(p, s.e, env, h, trace, fuel), own);
    } else if s.Skip? || s.Block? || s.Seq? || s.Let? {
      BlockSound(p, f, s, env, h, trace, fuel, own);
    } else if s.If? || s.IfElse? {
      UnfoldBranchRun(p, s, env, h, trace, fuel);
      var o := RunExpr(p, s.c, env, h, trace, fuel);
      ExprSound(p, f, s.c, env, h, trace, fuel, own);
      ExitPredicted(o, env, own, h);
      if o.Value? {
        EndsPredicted(Normal(env, o.trace), own, h);
        if o.v != 0 {
          StmtSound(p, f, s.t, env, h, o.trace, fuel, own);
        } else if s.IfElse? {
          StmtSound(p, f, s.f, env, h, o.trace, fuel, own);
        }
      }
    } else if s.OnFail? {
      FailSound(p, f, s, env, h, trace, fuel, own);
    } else {
      LoopSound(p, f, s, env, h, trace, fuel, own);
    }
  }

  lemma BlockSound(p: seq<Func>, f: nat, s: Stmt, env: Env, h: Shield, trace: seq<Event>, fuel: nat, own: Errors)
    requires s.Skip? || s.Block? || s.Seq? || s.Let?
    requires Settled(p) && FineStmt(p, f, s, h, own)
    ensures StmtPredicted(RunStmt(p, s, env, h, trace, fuel), own, h)
    decreases fuel, 5, s, 0
  {
    hide *;
    FineStmtParts(p, f, s, h, own);
    UnfoldBlockRun(p, s, env, h, trace, fuel);
    match s
    case Skip => EndsPredicted(Normal(env, trace), own, h);
    case Block(s1) => StmtSound(p, f, s1, env, h, trace, fuel, own);
    case Seq(a, b) =>
      var o := RunStmt(p, a, env, h, trace, fuel);
      StmtSound(p, f, a, env, h, trace, fuel, own);
      if o.Normal? {
        StmtSound(p, f, b, o.env, h, o.trace, fuel, own);
      }
    case Let(x, e, s1) =>
      var o := RunExpr(p, e, env, h, trace, fuel);
      ExprSound(p, f, e, env, h, trace, fuel, own);
      ExitPredicted(o, env, own, h);
      if o.Value? {
        StmtSound(p, f, s1, env[x := o.v], h, o.trace, fuel, own);
        HidePredicted(RunStmt(p, s1, env[x := o.v], h, o.trace, fuel), x, env, own, h);
      }
  }

  lemma LoopSound(p: seq<Func>, f: nat, s: Stmt, env: Env, h: Shield, trace: seq<Event>, fuel: nat, own: Errors)
    requires s.While? || s.DoWhile?
    requires Settled(p) && FineStmt(p, f, s, h, own)
    ensures StmtPredicted(RunStmt(p, s, env, h, trace, fuel), own, h)
    decreases fuel, 5, s, 0
  {
    hide *;
    FineStmtParts(p, f, s, h, own);
    UnfoldLoopRun(p, s, env, h, trace, fuel);
    EndsPredicted(RunStmt(p, s, env, h, trace, fuel), own, h);
    if fuel > 0 && s.While? {
      var o := RunExpr(p, s.c, env, h, trace, fuel);
      ExprSound(p, f, s.c, env, h, trace, fuel, own);
      ExitPredicted(o, env, own, h);
      if o.Value? && o.v != 0 {
        var b := RunStmt(p, s.s, env, h, o.trace, fuel);
        StmtSound(p, f, s.s, env, h, o.trace, fuel, own);
        if b.Normal? {
          StmtSound(p, f, s, b.env, h, b.trace, fuel - 1, own);
        }
      }
    } else if fuel > 0 {
      var b := RunStmt(p, s.s, env, h, trace, fuel);
      StmtSound(p, f, s.s, env, h, trace, fuel, own);
      if b.Normal? {
        var o := RunExpr(p, s.c, b.env, h, b.trace, fuel);
        ExprSound(p, f, s.c, b.env, h, b.trace, fuel, own);
        ExitPredicted(o, b.env, own, h);
        if o.Value? && o.v != 0 {
          StmtSound(p, f, s, b.env, h, o.trace, fuel - 1, own);
        }
      }
    }
  }

  lemma FailSound(p: seq<Func>, f: nat, s: Stmt, env: Env, h: Shield, trace: seq<Event>, fuel: nat, own: Errors)
    requires s.OnFail?
    requires Settled(p) && FineStmt(p, f, s, h, own)
    ensures StmtPredicted(RunStmt(p, s, env, h, trace, fuel), own, h)
    decreases fuel, 5, s, 0
  {
    hide *;
    FineStmtParts(p, f, s, h, own);
    UnfoldFailRun(p, s, env, h, trace, fuel);
    var o := RunStmt(p, s.s, env, h.With(s.atomid), trace, fuel);
    StmtSound(p, f, s.s, env, h.With(s.atomid), trace, fuel, own);
    if o.StmtExit? && o.exit.Caught? && o.exit.k == |h.types| {
      var env1 := if s.atomid == 0 then o.env else o.env[s.x := o.exit.error];
      StmtSound(p, f, s.h, env1, h, o.trace, fuel, own);
      HandlerPredicted(p, s, h, fuel, o, own);
    } else {
      OuterPredicted(o, s.atomid, own, h);
    }
  }

  lemma HandlerPredicted(p: seq<Func>, s: Stmt, h: Shield, fuel: nat, o: StmtOut, own: Errors)
    requires s.OnFail? && o.StmtExit? && o.exit.Caught?
    requires var env := if s.atomid == 0 then o.env else o.env[s.x := o.exit.error];
      StmtPredicted(RunStmt(p, s.h, env, h, o.trace, fuel), own, h)
    ensures StmtPredicted(HandlerRun(p, s, s.h, h, fuel, o), own, h)
  {
    hide RunStmt;
  }

  lemma OuterPredicted(o: StmtOut, atomid: nat, own: Errors, h: Shield)
    requires StmtPredicted(o, own, h.With(atomid)) && CanRegister(h, atomid)
    requires !(o.StmtExit? && o.exit.Caught? && o.exit.k == |h.types|)
    ensures StmtPredicted(o, own, h)
  {
  }

  // ---- whole programs ----

  lemma NoneLeaks(p: seq<Func>, g: nat, vs: seq<u64>, fuel: nat)
    requires Accepted(p) && Steady(p) && g < |p|
    ensures var o := RunFunc(p, g, vs, [], fuel);
      && !Loses(o)
      && (o.StmtExit? ==> !o.exit.Caught? && (o.exit.Unwound? ==> o.exit.atomid in Raises(p)[g]))
  {
    SteadyIsSettled(p);
    FuncSound(p, g, vs, [], fuel);
    hide RunFunc;
    hide Raises;
    hide Settled;
    hide Accepted;
    hide Steady;
  }

  // The machine does what an accepted program means, and lets out the predicted errors only
  lemma AcceptedPrograms(p: seq<Func>, m: Program, g: nat, vs: seq<u64>, fuel: nat) returns (k: nat)
    requires GoodProgram(p) && TidyProgram(p) && Accepted(p) && Steady(p)
    requires m.funcs == EmitAll(p) && g < |p| && |vs| == |p[g].params|
    ensures EmitBody(p[g]).n > |vs|
    ensures var o := RunFunc(p, g, vs, [], fuel);
      && Finished(m, StepN(m, Boot(p, m, g, vs), k), o)
      && (o.StmtExit? && o.exit.Unwound? ==> o.exit.atomid in Raises(p)[g])
  {
    hide *;
    NoneLeaks(p, g, vs, fuel);
    k := MeaningPreserved(p, m, g, vs, fuel);
  }

  // It stops if and only if the meaning ends
  lemma AcceptedEnd(p: seq<Func>, m: Program, g: nat, vs: seq<u64>)
    requires GoodProgram(p) && TidyProgram(p) && Accepted(p) && Steady(p)
    requires m.funcs == EmitAll(p) && g < |p| && |vs| == |p[g].params|
    ensures EmitBody(p[g]).n > |vs|
    ensures (exists k: nat :: StepN(m, Boot(p, m, g, vs), k).status != Running)
       <==> (exists fuel: nat :: !TimedOut(RunFunc(p, g, vs, [], fuel)))
  {
    hide *;
    TidyProgramDoes(p);
    forall fuel: nat
      ensures !Loses(RunFunc(DoesAll(p), g, vs, [], fuel))
    {
      NoneLeaks(p, g, vs, fuel);
    }
    NeverStops(p, m, g, vs);
  }
}
