// Programs where each 'and' / 'or' evaluates both operands, and when they mean the same as with minimal evaluation.
module Strictness {
  import opened Isa
  import opened Machine
  import opened Handlers
  import opened Source

  // ---- the strict program ----

  function Strict(e: Expr): Expr {
    match e
    case Const(_) => e
    case Var(_) => e
    case Not(e1) => Not(Strict(e1))
    case Bin(op, l, r) => Bin(op, Strict(l), Strict(r))
    case Both(l, r, _) => Both(Strict(l), Strict(r), false)
    case Either(l, r, _) => Either(Strict(l), Strict(r), false)
    case Choice(c, t, f) => Choice(Strict(c), Strict(t), Strict(f))
    case Apply(f, args) => Apply(f, StrictArgs(args))
  }

  function StrictArgs(args: Args): Args {
    match args
    case NoArgs => NoArgs
    case More(e, rest) => More(Strict(e), StrictArgs(rest))
  }

  function StrictStmt(s: Stmt): Stmt {
    match s
    case Skip => Skip
    case Block(s1) => Block(StrictStmt(s1))
    case Seq(a, b) => Seq(StrictStmt(a), StrictStmt(b))
    case Let(x, e, s1) => Let(x, Strict(e), StrictStmt(s1))
    case Assign(x, e) => Assign(x, Strict(e))
    case Eval(e) => Eval(Strict(e))
    case Observe(iid, e) => Observe(iid, Strict(e))
    case Assert(e) => Assert(Strict(e))
    case If(c, t) => If(Strict(c), StrictStmt(t))
    case IfElse(c, t, f) => IfElse(Strict(c), StrictStmt(t), StrictStmt(f))
    case While(c, s1) => While(Strict(c), StrictStmt(s1))
    case DoWhile(s1, c) => DoWhile(StrictStmt(s1), Strict(c))
    case Return(e) => Return(Strict(e))
    case Throw(atomid, e) => Throw(atomid, Strict(e))
    case OnFail(atomid, x, h, s1) => OnFail(atomid, x, StrictStmt(h), StrictStmt(s1))
  }

  function StrictFunc(f: Func): Func { Func(f.params, StrictStmt(f.body), Strict(f.result)) }

  function StrictAll(p: seq<Func>): (r: seq<Func>)
    ensures |r| == |p| && forall g :: 0 <= g < |p| ==> r[g] == StrictFunc(p[g])
  {
    seq(|p|, g requires 0 <= g < |p| => StrictFunc(p[g]))
  }

  // ---- operands which may be evaluated all the same ----

  // The first operand decides alone
  predicate Decides(e: Expr, a: u64)
    requires e.Both? || e.Either?
  {
    e.lazy && (e.Both? <==> a == 0)
  }

  // What the second operand would have been, if it had been evaluated in the strict program
  predicate Quiet(e: Expr, a: u64, trace: seq<Event>, second: ExprOut)
    requires e.Both? || e.Either?
  {
    second.Value? && second.trace == trace && (e.Both? || (a == 1 && second.v <= 1))
  }

  // Every operand which is skipped along the evaluation is quiet
  predicate SafeExpr(p: seq<Func>, e: Expr, env: Env, h: Shield, trace: seq<Event>, fuel: nat)
    decreases fuel, 4, e
  {
    match e
    case Const(_) => true
    case Var(_) => true
    case Not(e1) => SafeExpr(p, e1, env, h, trace, fuel)
    case Bin(_, l, r) =>
      SafeExpr(p, l, env, h, trace, fuel)
      && var o := RunExpr(p, l, env, h, trace, fuel);
         o.Value? ==> SafeExpr(p, r, env, h, o.trace, fuel)
    case Both(_, _, _) => SafeOperator(p, e, env, h, trace, fuel)
    case Either(_, _, _) => SafeOperator(p, e, env, h, trace, fuel)
    case Choice(c, t, f) =>
      SafeExpr(p, c, env, h, trace, fuel)
      && var o := RunExpr(p, c, env, h, trace, fuel);
         o.Value? ==> SafeExpr(p, if o.v != 0 then t else f, env, h, o.trace, fuel)
    case Apply(f, args) =>
      SafeArgs(p, args, env, h, trace, fuel)
      && var o := RunArgs(p, args, env, h, trace, fuel);
         o.Values? && fuel > 0 ==> SafeFunc(p, f, o.vs, o.trace, fuel - 1)
  }

  predicate SafeOperator(p: seq<Func>, e: Expr, env: Env, h: Shield, trace: seq<Event>, fuel: nat)
    requires e.Both? || e.Either?
    decreases fuel, 4, e, 0
  {
    SafeExpr(p, e.l, env, h, trace, fuel)
    && var o := RunExpr(p, e.l, env, h, trace, fuel);
       o.Value? ==>
         if Decides(e, o.v) then Quiet(e, o.v, o.trace, RunExpr(StrictAll(p), Strict(e.r), env, h, o.trace, fuel))
         else SafeExpr(p, e.r, env, h, o.trace, fuel)
  }

  predicate SafeArgs(p: seq<Func>, args: Args, env: Env, h: Shield, trace: seq<Event>, fuel: nat)
    decreases fuel, 4, args
  {
    match args
    case NoArgs => true
    case More(e, rest) =>
      SafeExpr(p, e, env, h, trace, fuel)
      && var o := RunExpr(p, e, env, h, trace, fuel);
         o.Value? ==> SafeArgs(p, rest, env, h, o.trace, fuel)
  }

  predicate SafeFunc(p: seq<Func>, f: nat, vs: seq<u64>, trace: seq<Event>, fuel: nat)
    decreases fuel, 2, Skip
  {
    fuel > 0 && f < |p| && |vs| == |p[f].params| ==>
      SafeStmt(p, WholeBody(p[f]), Bind(p[f].params, vs), BARE, trace, fuel - 1)
  }

  // An expression, then the statement which goes on with its value
  predicate SafeStmt(p: seq<Func>, s: Stmt, env: Env, h: Shield, trace: seq<Event>, fuel: nat)
    decreases fuel, 5, s
  {
    match s
    case Skip => true
    case Block(s1) => SafeStmt(p, s1, env, h, trace, fuel)
    case Seq(a, b) =>
      SafeStmt(p, a, env, h, trace, fuel)
      && var o := RunStmt(p, a, env, h, trace, fuel);
         o.Normal? ==> SafeStmt(p, b, o.env, h, o.trace, fuel)
    case Let(x, e, s1) =>
      SafeExpr(p, e, env, h, trace, fuel)
      && var o := RunExpr(p, e, env, h, trace, fuel);
         o.Value? ==> SafeStmt(p, s1, env[x := o.v], h, o.trace, fuel)
    case Assign(_, e) => SafeExpr(p, e, env, h, trace, fuel)
    case Eval(e) => SafeExpr(p, e, env, h, trace, fuel)
    case Observe(_, e) => SafeExpr(p, e, env, h, trace, fuel)
    case Assert(e) => SafeExpr(p, e, env, h, trace, fuel)
    case If(c, t) =>
      SafeExpr(p, c, env, h, trace, fuel)
      && var o := RunExpr(p, c, env, h, trace, fuel);
         o.Value? && o.v != 0 ==> SafeStmt(p, t, env, h, o.trace, fuel)
    case IfElse(c, t, f) =>
      SafeExpr(p, c, env, h, trace, fuel)
      && var o := RunExpr(p, c, env, h, trace, fuel);
         o.Value? ==> SafeStmt(p, if o.v != 0 then t else f, env, h, o.trace, fuel)
    case While(c, s1) =>
      fuel > 0 ==>
        SafeExpr(p, c, env, h, trace, fuel)
        && var o := RunExpr(p, c, env, h, trace, fuel);
           o.Value? && o.v != 0 ==>
             SafeStmt(p, s1, env, h, o.trace, fuel)
             && var b := RunStmt(p, s1, env, h, o.trace, fuel);
                b.Normal? ==> SafeStmt(p, s, b.env, h, b.trace, fuel - 1)
    case DoWhile(s1, c) =>
      fuel > 0 ==>
        SafeStmt(p, s1, env, h, trace, fuel)
        && var b := RunStmt(p, s1, env, h, trace, fuel);
           b.Normal? ==>
             SafeExpr(p, c, b.env, h, b.trace, fuel)
             && var o := RunExpr(p, c, b.env, h, b.trace, fuel);
                o.Value? && o.v != 0 ==> SafeStmt(p, s, b.env, h, o.trace, fuel - 1)
    case Return(e) => SafeExpr(p, e, env, h, trace, fuel)
    case Throw(_, e) => SafeExpr(p, e, env, h, trace, fuel)
    case OnFail(atomid, x, hb, s1) =>
      SafeStmt(p, s1, env, h.With(atomid), trace, fuel)
      && var o := RunStmt(p, s1, env, h.With(atomid), trace, fuel);
         o.StmtExit? && o.exit.Caught? && o.exit.k == |h.types| ==>
           SafeStmt(p, hb, if atomid == 0 then o.env else o.env[x := o.exit.error], h, o.trace, fuel)
  }

  // ---- one operator ----

  // When the first operand decides: the strict operator gives the same if and only if the second operand is quiet
  lemma OperatorAgrees(p: seq<Func>, e: Expr, env: Env, h: Shield, trace: seq<Event>, fuel: nat)
    requires e.Both? || e.Either?
    requires var o := RunExpr(p, e.l, env, h, trace, fuel);
      && o.Value? && Decides(e, o.v)
      && RunExpr(StrictAll(p), Strict(e.l), env, h, trace, fuel) == o
    ensures var o := RunExpr(p, e.l, env, h, trace, fuel);
      RunExpr(StrictAll(p), Strict(e), env, h, trace, fuel) == RunExpr(p, e, env, h, trace, fuel)
      <==> Quiet(e, o.v, o.trace, RunExpr(StrictAll(p), Strict(e.r), env, h, o.trace, fuel))
  {
    var a := RunExpr(p, e.l, env, h, trace, fuel).v;
    var second := RunExpr(StrictAll(p), Strict(e.r), env, h, RunExpr(p, e.l, env, h, trace, fuel).trace, fuel);
    if e.Both? {
      assert RunExpr(p, e, env, h, trace, fuel) == Value(0, RunExpr(p, e.l, env, h, trace, fuel).trace);
    } else if second.Value? {
      OrIsOne(a, second.v);
    }
  }

  lemma OrIsOne(a: u64, b: u64)
    requires a != 0
    ensures Arith(BitOr, a, b).value == 1 <==> a == 1 && b <= 1
  {
    if a == 1 && b <= 1 {
      assert BitwiseOr(1, 0) == 1;
      assert BitwiseOr(1, 1) == 1 + 2 * BitwiseOr(0, 0);
    }
  }

  // ---- whole evaluations ----

  lemma {:induction false} ExprAgrees(p: seq<Func>, e: Expr, env: Env, h: Shield, trace: seq<Event>, fuel: nat)
    requires SafeExpr(p, e, env, h, trace, fuel)
    ensures RunExpr(StrictAll(p), Strict(e), env, h, trace, fuel) == RunExpr(p, e, env, h, trace, fuel)
    decreases fuel, 4, e
  {
    match e
    case Const(_) =>
    case Var(_) =>
    case Not(e1) => ExprAgrees(p, e1, env, h, trace, fuel);
    case Bin(_, l, r) =>
      ExprAgrees(p, l, env, h, trace, fuel);
      var o := RunExpr(p, l, env, h, trace, fuel);
      if o.Value? {
        ExprAgrees(p, r, env, h, o.trace, fuel);
      }
    case Both(_, _, _) => ShortAgrees(p, e, env, h, trace, fuel);
    case Either(_, _, _) => ShortAgrees(p, e, env, h, trace, fuel);
    case Choice(c, t, f) =>
      ExprAgrees(p, c, env, h, trace, fuel);
      var o := RunExpr(p, c, env, h, trace, fuel);
      if o.Value? {
        ExprAgrees(p, if o.v != 0 then t else f, env, h, o.trace, fuel);
      }
    case Apply(f, args) =>
      ArgsAgree(p, args, env, h, trace, fuel);
      var o := RunArgs(p, args, env, h, trace, fuel);
      if o.Values? && fuel > 0 {
        FuncAgrees(p, f, o.vs, o.trace, fuel - 1);
      }
  }

  lemma ShortAgrees(p: seq<Func>, e: Expr, env: Env, h: Shield, trace: seq<Event>, fuel: nat)
    requires (e.Both? || e.Either?) && SafeExpr(p, e, env, h, trace, fuel)
    ensures RunExpr(StrictAll(p), Strict(e), env, h, trace, fuel) == RunExpr(p, e, env, h, trace, fuel)
    decreases fuel, 4, e, 0
  {
    ExprAgrees(p, e.l, env, h, trace, fuel);
    var o := RunExpr(p, e.l, env, h, trace, fuel);
    if o.Value? {
      if Decides(e, o.v) {
        OperatorAgrees(p, e, env, h, trace, fuel);
      } else {
        ExprAgrees(p, e.r, env, h, o.trace, fuel);
      }
    }
  }

  lemma {:induction false} ArgsAgree(p: seq<Func>, args: Args, env: Env, h: Shield, trace: seq<Event>, fuel: nat)
    requires SafeArgs(p, args, env, h, trace, fuel)
    ensures RunArgs(StrictAll(p), StrictArgs(args), env, h, trace, fuel) == RunArgs(p, args, env, h, trace, fuel)
    decreases fuel, 4, args
  {
    if args.More? {
      ExprAgrees(p, args.e, env, h, trace, fuel);
      var o := RunExpr(p, args.e, env, h, trace, fuel);
      if o.Value? {
        ArgsAgree(p, args.rest, env, h, o.trace, fuel);
      }
    }
  }

  lemma FuncAgrees(p: seq<Func>, f: nat, vs: seq<u64>, trace: seq<Event>, fuel: nat)
    requires SafeFunc(p, f, vs, trace, fuel)
    ensures RunFunc(StrictAll(p), f, vs, trace, fuel) == RunFunc(p, f, vs, trace, fuel)
    decreases fuel, 2, Skip
  {
    hide RunStmt;
    hide SafeStmt;
    if fuel > 0 && f < |p| && |vs| == |p[f].params| {
      StmtAgrees(p, WholeBody(p[f]), Bind(p[f].params, vs), BARE, trace, fuel - 1);
      assert StrictStmt(WholeBody(p[f])) == WholeBody(StrictFunc(p[f]));
    }
  }

  lemma {:induction false} StmtAgrees(p: seq<Func>, s: Stmt, env: Env, h: Shield, trace: seq<Event>, fuel: nat)
    requires SafeStmt(p, s, env, h, trace, fuel)
    ensures RunStmt(StrictAll(p), StrictStmt(s), env, h, trace, fuel) == RunStmt(p, s, env, h, trace, fuel)
    decreases fuel, 5, s
  {
    match s
    case Skip =>
    case Block(s1) => StmtAgrees(p, s1, env, h, trace, fuel);
    case Seq(a, b) =>
      StmtAgrees(p, a, env, h, trace, fuel);
      var o := RunStmt(p, a, env, h, trace, fuel);
      if o.Normal? {
        StmtAgrees(p, b, o.env, h, o.trace, fuel);
      }
    case Let(x, e, s1) =>
      ExprAgrees(p, e, env, h, trace, fuel);
      var o := RunExpr(p, e, env, h, trace, fuel);
      if o.Value? {
        StmtAgrees(p, s1, env[x := o.v], h, o.trace, fuel);
      }
    case Assign(_, e) => ExprAgrees(p, e, env, h, trace, fuel);
    case Eval(e) => ExprAgrees(p, e, env, h, trace, fuel);
    case Observe(_, e) => ExprAgrees(p, e, env, h, trace, fuel);
    case Assert(e) => ExprAgrees(p, e, env, h, trace, fuel);
    case If(c, t) =>
      ExprAgrees(p, c, env, h, trace, fuel);
      var o := RunExpr(p, c, env, h, trace, fuel);
      if o.Value? && o.v != 0 {
        StmtAgrees(p, t, env, h, o.trace, fuel);
      }
    case IfElse(c, t, f) =>
      ExprAgrees(p, c, env, h, trace, fuel);
      var o := RunExpr(p, c, env, h, trace, fuel);
      if o.Value? {
        StmtAgrees(p, if o.v != 0 then t else f, env, h, o.trace, fuel);
      }
    case While(c, s1) => LoopAgrees(p, s, env, h, trace, fuel);
    case DoWhile(s1, c) => LoopAgrees(p, s, env, h, trace, fuel);
    case Return(e) => ExprAgrees(p, e, env, h, trace, fuel);
    case Throw(_, e) => ExprAgrees(p, e, env, h, trace, fuel);
    case OnFail(atomid, x, hb, s1) =>
      StmtAgrees(p, s1, env, h.With(atomid), trace, fuel);
      var o := RunStmt(p, s1, env, h.With(atomid), trace, fuel);
      if o.StmtExit? && o.exit.Caught? && o.exit.k == |h.types| {
        StmtAgrees(p, hb, if atomid == 0 then o.env else o.env[x := o.exit.error], h, o.trace, fuel);
      }
  }

  lemma LoopAgrees(p: seq<Func>, s: Stmt, env: Env, h: Shield, trace: seq<Event>, fuel: nat)
    requires (s.While? || s.DoWhile?) && SafeStmt(p, s, env, h, trace, fuel)
    ensures RunStmt(StrictAll(p), StrictStmt(s), env, h, trace, fuel) == RunStmt(p, s, env, h, trace, fuel)
    decreases fuel, 5, s, 0
  {
    if fuel > 0 && s.While? {
      ExprAgrees(p, s.c, env, h, trace, fuel);
      var o := RunExpr(p, s.c, env, h, trace, fuel);
      if o.Value? && o.v != 0 {
        StmtAgrees(p, s.s, env, h, o.trace, fuel);
        var b := RunStmt(p, s.s, env, h, o.trace, fuel);
        if b.Normal? {
          StmtAgrees(p, s, b.env, h, b.trace, fuel - 1);
        }
      }
    } else if fuel > 0 {
      StmtAgrees(p, s.s, env, h, trace, fuel);
      var b := RunStmt(p, s.s, env, h, trace, fuel);
      if b.Normal? {
        ExprAgrees(p, s.c, b.env, h, b.trace, fuel);
        var o := RunExpr(p, s.c, b.env, h, b.trace, fuel);
        if o.Value? && o.v != 0 {
          StmtAgrees(p, s, b.env, h, o.trace, fuel - 1);
        }
      }
    }
  }
}
