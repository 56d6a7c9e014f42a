// Minimal evaluation refines strict evaluation: the program once its operators were rewritten with jumps, and the
// program before, both run by the machine.
module Refinement {
  import opened Isa
  import opened Machine
  import opened Handlers
  import opened Source
  import opened Strictness
  import opened Emitter
  import opened Layout
  import opened Untidy
  import opened Running
  import opened Dispatching
  import opened Correspondence
  import opened Expressions
  import opened Preservation
  import opened ShortCircuit

  // ---- strict programs are well-formed too ----

  lemma {:induction false} ExprGood(p: seq<Func>, e: Expr, names: set<nat>)
    requires GoodExpr(p, e, names)
    ensures GoodExpr(StrictAll(p), Strict(e), names)
    decreases e
  {
    match e
    case Const(_) =>
    case Var(_) =>
    case Not(e1) => ExprGood(p, e1, names);
    case Bin(_, l, r) => ExprGood(p, l, names); ExprGood(p, r, names);
    case Both(l, r, _) => ExprGood(p, l, names); ExprGood(p, r, names);
    case Either(l, r, _) => ExprGood(p, l, names); ExprGood(p, r, names);
    case Choice(c, t, f) => ExprGood(p, c, names); ExprGood(p, t, names); ExprGood(p, f, names);
    case Apply(f, args) => ArgsGood(p, args, names);
  }

  lemma {:induction false} ArgsGood(p: seq<Func>, args: Args, names: set<nat>)
    requires GoodArgs(p, args, names)
    ensures GoodArgs(StrictAll(p), StrictArgs(args), names) && Arity(StrictArgs(args)) == Arity(args)
    decreases args
  {
    if args.More? {
      ExprGood(p, args.e, names);
      ArgsGood(p, args.rest, names);
    }
  }

  lemma {:induction false} StmtGood(p: seq<Func>, s: Stmt, names: set<nat>, h: Shield)
    requires GoodStmt(p, s, names, h)
    ensures GoodStmt(StrictAll(p), StrictStmt(s), names, h)
    decreases s
  {
    hide GoodExpr;
    hide Strict;
    hide CanRegister;
    match s
    case Skip =>
    case Block(s1) => StmtGood(p, s1, names, h);
    case Seq(a, b) => StmtGood(p, a, names, h); StmtGood(p, b, names, h);
    case Let(x, e, s1) => ExprGood(p, e, names); StmtGood(p, s1, names + {x}, h);
    case Assign(_, e) => ExprGood(p, e, names);
    case Eval(e) => ExprGood(p, e, names);
    case Observe(_, e) => ExprGood(p, e, names);
    case Assert(e) => ExprGood(p, e, names);
    case If(c, t) => ExprGood(p, c, names); StmtGood(p, t, names, h);
    case IfElse(c, t, f) => ExprGood(p, c, names); StmtGood(p, t, names, h); StmtGood(p, f, names, h);
    case While(c, s1) => ExprGood(p, c, names); StmtGood(p, s1, names, h);
    case DoWhile(s1, c) => ExprGood(p, c, names); StmtGood(p, s1, names, h);
    case Return(e) => ExprGood(p, e, names);
    case Throw(_, e) => ExprGood(p, e, names);
    case OnFail(atomid, x, hb, s1) =>
      StmtGood(p, hb, if atomid == 0 then names else names + {x}, h);
      StmtGood(p, s1, names, h.With(atomid));
  }

  lemma ProgramGood(p: seq<Func>)
    requires GoodProgram(p)
    ensures GoodProgram(StrictAll(p))
  {
    var q := StrictAll(p);
    hide GoodStmt;
    forall f | 0 <= f < |q|
      ensures GoodStmt(q, WholeBody(q[f]), (set x | x in q[f].params), BARE)
    {
      StmtGood(p, WholeBody(p[f]), (set x | x in p[f].params), BARE);
      assert StrictStmt(WholeBody(p[f])) == WholeBody(q[f]);
    }
  }

  // ---- the code of the strict program does what the code of the program does, strictly ----

  lemma {:induction false} SameEnd(s: Stmt)
    ensures EndsWithHandler(StrictStmt(s)) == EndsWithHandler(s)
    ensures DrawsNothing(StrictStmt(s)) == DrawsNothing(s)
    decreases s
  {
    match s
    case Block(s1) => SameEnd(s1);
    case Seq(a, b) => SameEnd(a); SameEnd(b);
    case Let(_, _, s1) => SameEnd(s1);
    case _ =>
  }

  lemma {:induction false} DoesStrictly(s: Stmt)
    ensures Does(StrictStmt(s)) == StrictStmt(Does(s))
    decreases s
  {
    hide EndsWithHandler;
    match s
    case Block(s1) => DoesStrictly(s1);
    case Seq(a, b) => DoesStrictly(a); DoesStrictly(b);
    case Let(_, _, s1) => DoesStrictly(s1);
    case If(_, t) => DoesStrictly(t);
    case IfElse(_, t, f) => DoesStrictly(t); DoesStrictly(f); SameEnd(t);
    case While(_, s1) => DoesStrictly(s1); SameEnd(s1);
    case DoWhile(s1, _) => DoesStrictly(s1);
    case OnFail(_, _, hb, s1) => DoesStrictly(hb); DoesStrictly(s1); SameEnd(hb);
    case _ =>
  }

  lemma AllDoStrictly(p: seq<Func>)
    ensures DoesAll(StrictAll(p)) == StrictAll(DoesAll(p))
  {
    forall g | 0 <= g < |p|
      ensures DoesFunc(StrictFunc(p[g])) == StrictFunc(DoesFunc(p[g]))
    {
      DoesStrictly(p[g].body);
    }
  }

  // ---- one expression ----

  lemma ValueMeans(w: Site, s: State, t: State, pos: nat, lvid: nat, n: nat, out: ExprOut)
    requires out.Value? && ExprDone(w, s, t, pos, lvid, n, out)
    ensures t.act.pc == pos && t.act.func == w.f && Holds(t, lvid, out.v) && t.trace == out.trace
  {
  }

  // The code of an expression before and after its operators were rewritten, each in its program: when every skipped
  // operand is quiet, both runs arrive at the same place, right after the code, with the same value in the same
  // register, and the same events
  lemma ExprRefined(w: Site, w': Site, s: State, s': State, pos: nat, e: Expr, n: nat, env: Env, fuel: nat)
    returns (t: State, t': State)
    requires GoodProgram(w.p) && w'.p == StrictAll(w.p) && w'.c == w.c && s'.trace == s.trace
    requires ExprAt(w, s, pos, e, n, env) && ExprAt(w', s', pos, Strict(e), n, env)
    requires SafeExpr(DoesAll(w.p), e, env, ShieldOf(w.c.hs), s.trace, fuel)
    requires RunExpr(DoesAll(w.p), e, env, ShieldOf(w.c.hs), s.trace, fuel).Value?
    ensures Reaches(w.m, s, t) && Reaches(w'.m, s', t')
    ensures var r := EmitExpr(e, w.c, n);
      var out := RunExpr(DoesAll(w.p), e, env, ShieldOf(w.c.hs), s.trace, fuel);
      && t.act.pc == t'.act.pc == pos + |r.code| && t.act.func == w.f && t'.act.func == w'.f
      && Holds(t, r.lvid, out.v) && Holds(t', r.lvid, out.v) && t.trace == t'.trace == out.trace
  {
    hide *;
    var out := RunExpr(DoesAll(w.p), e, env, ShieldOf(w.c.hs), s.trace, fuel);
    ProgramGood(w.p);
    AllCalls(w.p, w.m, fuel);
    AllCalls(w'.p, w'.m, fuel);
    AllDoStrictly(w.p);
    ExprAgrees(DoesAll(w.p), e, env, ShieldOf(w.c.hs), s.trace, fuel);
    OffsetsKept(e, w.c, n);
    SameShapeMeans(EmitExpr(Strict(e), w.c, n), EmitExpr(e, w.c, n));
    t := SimExpr(w, s, pos, e, n, env, fuel);
    t' := SimExpr(w', s', pos, Strict(e), n, env, fuel);
    ValueMeans(w, s, t, pos + |EmitExpr(e, w.c, n).code|, EmitExpr(e, w.c, n).lvid, n, out);
    ValueMeans(w', s', t', pos + |EmitExpr(e, w.c, n).code|, EmitExpr(e, w.c, n).lvid, n, out);
  }

  lemma SameShapeMeans(strict: Emitted, quick: Emitted)
    requires SameShape(strict, quick)
    ensures |strict.code| == |quick.code| && strict.n == quick.n && strict.lvid == quick.lvid
  {
  }

  // ---- whole programs ----

  // Both programs end the same way, with the same events
  lemma ProgramRefined(p: seq<Func>, m: Program, m': Program, g: nat, vs: seq<u64>, fuel: nat) returns (k: nat, k': nat)
    requires GoodProgram(p) && g < |p| && |vs| == |p[g].params|
    requires m.funcs == EmitAll(p) && m'.funcs == EmitAll(StrictAll(p))
    requires SafeFunc(DoesAll(p), g, vs, [], fuel)
    ensures EmitBody(p[g]).n > |vs| && EmitBody(StrictAll(p)[g]).n > |vs|
    ensures Finished(m, StepN(m, Boot(p, m, g, vs), k), RunFunc(DoesAll(p), g, vs, [], fuel))
    ensures Finished(m', StepN(m', Boot(StrictAll(p), m', g, vs), k'), RunFunc(DoesAll(p), g, vs, [], fuel))
  {
    hide *;
    var q := StrictAll(p);
    StrictParams(p, g);
    ProgramGood(p);
    AllDoStrictly(p);
    FuncAgrees(DoesAll(p), g, vs, [], fuel);
    k := CodeDoes(p, m, g, vs, fuel);
    k' := CodeDoes(q, m', g, vs, fuel);
  }

  lemma StrictParams(p: seq<Func>, g: nat)
    requires g < |p|
    ensures |StrictAll(p)| == |p| && StrictAll(p)[g].params == p[g].params
  {
  }
}
