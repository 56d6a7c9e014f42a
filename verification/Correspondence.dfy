// How a source state and a machine state correspond: each name in scope has a register which holds its value, and the
// handlers in scope have their labels in the function. Then the shared pieces of emitted code, and what it means for
// a fragment to be done: at its end, in a handler, out of the function, or at a fault.
module Correspondence {
  import opened Isa
  import opened Jumps
  import opened Machine
  import opened Handlers
  import opened Source
  import opened Emitter
  import opened Layout
  import opened Untidy
  import opened Running
  import opened Dispatching

  // ---- well-formed programs ----

  function Arity(args: Args): nat { if args.NoArgs? then 0 else 1 + Arity(args.rest) }

  // Names are declared, and functions are called with the expected number of arguments
  predicate GoodExpr(p: seq<Func>, e: Expr, names: set<nat>) {
    match e
    case Const(_) => true
    case Var(x) => x in names
    case Not(e1) => GoodExpr(p, e1, names)
    case Bin(_, l, r) => GoodExpr(p, l, names) && GoodExpr(p, r, names)
    case Both(l, r, _) => GoodExpr(p, l, names) && GoodExpr(p, r, names)
    case Either(l, r, _) => GoodExpr(p, l, names) && GoodExpr(p, r, names)
    case Choice(c, t, f) => GoodExpr(p, c, names) && GoodExpr(p, t, names) && GoodExpr(p, f, names)
    case Apply(f, args) => f < |p| && Arity(args) == |p[f].params| && GoodArgs(p, args, names)
  }

  predicate GoodArgs(p: seq<Func>, args: Args, names: set<nat>) {
    args.More? ==> GoodExpr(p, args.e, names) && GoodArgs(p, args.rest, names)
  }

  // Moreover, a handler is registered only for errors which are not handled yet, and a raised error is handled if there
  // is a handler in scope
  predicate GoodStmt(p: seq<Func>, s: Stmt, names: set<nat>, h: Shield) {
    match s
    case Skip => true
    case Block(s1) => GoodStmt(p, s1, names, h)
    case Seq(a, b) => GoodStmt(p, a, names, h) && GoodStmt(p, b, names, h)
    case Let(x, e, s1) => GoodExpr(p, e, names) && GoodStmt(p, s1, names + {x}, h)
    case Assign(x, e) => x in names && GoodExpr(p, e, names)
    case Eval(e) => GoodExpr(p, e, names)
    case Observe(_, e) => GoodExpr(p, e, names)
    case Assert(e) => GoodExpr(p, e, names)
    case If(c, t) => GoodExpr(p, c, names) && GoodStmt(p, t, names, h)
    case IfElse(c, t, f) => GoodExpr(p, c, names) && GoodStmt(p, t, names, h) && GoodStmt(p, f, names, h)
    case While(c, s1) => GoodExpr(p, c, names) && GoodStmt(p, s1, names, h)
    case DoWhile(s1, c) => GoodExpr(p, c, names) && GoodStmt(p, s1, names, h)
    case Return(e) => GoodExpr(p, e, names)
    case Throw(atomid, e) => atomid > 0 && Covers(h, {atomid}) && GoodExpr(p, e, names)
    case OnFail(atomid, x, hb, s1) =>
      && CanRegister(h, atomid)
      && GoodStmt(p, hb, if atomid == 0 then names else names + {x}, h)
      && GoodStmt(p, s1, names, h.With(atomid))
  }

  ghost predicate GoodProgram(p: seq<Func>) {
    forall f :: 0 <= f < |p| ==> GoodStmt(p, WholeBody(p[f]), (set x | x in p[f].params), BARE)
  }

  // ---- source states and machine states ----

  ghost predicate Scoped(c: Ctx, n: nat) {
    && (forall x :: x in c.names ==> 0 < c.names[x] <= n)
    && (forall x, y :: x in c.names && y in c.names && c.names[x] == c.names[y] ==> x == y)
    && (forall x, k :: x in c.names && 0 <= k < c.hs.Size() ==> c.names[x] != c.hs.At(k).target + 1)
    && FitsHandlers(c.hs, n) && ProperTypes(c.hs)
  }

  // The registers of the names in scope
  ghost function Slots(c: Ctx): set<nat> { set x | x in c.names :: c.names[x] }

  ghost predicate Agree(c: Ctx, env: Env, regs: seq<u64>) {
    forall x :: x in c.names ==> x in env && c.names[x] < |regs| && regs[c.names[x]] == env[x]
  }

  lemma KeepsAgree(c: Ctx, env: Env, s: State, t: State, n: nat, except: set<nat>)
    requires Agree(c, env, s.act.regs) && Keeps(s, t, n, except)
    requires forall x :: x in c.names ==> 0 < c.names[x] <= n && c.names[x] !in except
    ensures Agree(c, env, t.act.regs)
  {
  }

  // A place in an emitted function: what is in scope, where its handlers stand, and the greatest register
  datatype Site = Site(p: seq<Func>, m: Program, f: nat, c: Ctx, hp: seq<nat>, top: nat) {
    ghost predicate Setup() { m.funcs == EmitAll(p) && Ordered(m) && f < |p| }

    function Text(): Code
      requires f < |m.funcs|
    {
      m.funcs[f]
    }
  }

  // Ready to run a fragment emitted from the counter 'n'
  ghost predicate Start(w: Site, s: State, pos: nat, n: nat) {
    && w.Setup() && Scene(w.m, w.f, pos, n, w.c.hs, w.hp) && UpTo(w.Text(), pos) <= n + 1
    && Ready(w.m, s, w.f, pos, false) && CanReturn(s) && Scoped(w.c, n) && w.top < |s.act.regs|
  }

  // The fragment stands at 'pos'
  ghost predicate Stands(w: Site, pos: nat, frag: Code) { w.f < |w.m.funcs| && At(w.m.funcs[w.f], pos, frag) }

  lemma Split(w: Site, pos: nat, a: Code, b: Code)
    requires Stands(w, pos, a + b)
    ensures Stands(w, pos, a) && Stands(w, pos + |a|, b)
  {
    AtSplit(w.m.funcs[w.f], pos, a, b);
  }

  lemma Reads(w: Site, pos: nat, frag: Code, i: nat)
    requires Stands(w, pos, frag) && i < |frag|
    ensures pos + i < |w.m.funcs[w.f]| && w.m.funcs[w.f][pos + i] == frag[i]
  {
  }

  // After a fragment
  lemma StartMoves(w: Site, s: State, t: State, pos: nat, n: nat, frag: Code, hi: nat, n': nat)
    requires Start(w, s, pos, n) && Stands(w, pos, frag) && Fits(frag, n, hi, w.top)
    requires n <= n' && hi <= n' + 1
    requires Ready(w.m, t, w.f, pos + |frag|, false) && t.callers == s.callers && |t.act.regs| == |s.act.regs|
    ensures Start(w, t, pos + |frag|, n')
    ensures UpTo(w.Text(), pos + |frag|) <= Max(UpTo(w.Text(), pos), hi)
  {
    SceneMoves(w.m, w.f, pos, frag, n, hi, n', w.top, w.c.hs, w.hp);
  }

  ghost predicate ExprDone(w: Site, s: State, t: State, pos: nat, lvid: nat, n: nat, out: ExprOut) {
    && t.trace == out.trace
    && match out
       case Value(v, _) =>
         Ready(w.m, t, w.f, pos, false) && Keeps(s, t, n, {}) && lvid < |t.act.regs| && t.act.regs[lvid] == v
       case ExprExit(x, _) => Stopped(w.m, s, t, w.f, w.c.hs, w.hp, n, x)
  }

  // The evaluation takes more time than given: so does the machine
  ghost predicate SlowExpr(m: Program, s: State, out: ExprOut, fuel: int) {
    out.ExprExit? && out.exit == Timeout ==> Goes(m, s, fuel)
  }

  lemma SlowAfter(m: Program, s: State, t: State, out: ExprOut, fuel: int)
    requires Reaches(m, s, t) && SlowExpr(m, t, out, fuel)
    ensures SlowExpr(m, s, out, fuel)
  {
    if Goes(m, t, fuel) {
      GoesOn(m, s, t, fuel);
    }
  }

  lemma InTime(m: Program, s: State, out: ExprOut, fuel: int)
    requires out.ExprExit? ==> out.exit != Timeout
    ensures SlowExpr(m, s, out, fuel)
  {
  }

  // The expression is about to be evaluated
  ghost predicate ExprAt(w: Site, s: State, pos: nat, e: Expr, n: nat, env: Env) {
    && Start(w, s, pos, n) && Stands(w, pos, EmitExpr(e, w.c, n).code)
    && EmitExpr(e, w.c, n).n <= w.top && GoodExpr(w.p, e, w.c.names.Keys) && Agree(w.c, env, s.act.regs)
  }

  // ---- pieces of code shared by several constructs ----

  // Instructions without effect, then the fragment goes on
  lemma StartThrough(w: Site, s: State, pos: nat, n: nat, frag: Code, hi: nat, n': nat) returns (t: State)
    requires Start(w, s, pos, n) && Stands(w, pos, frag) && Fits(frag, n, hi, w.top) && n <= n' && hi <= n' + 1
    requires forall i :: 0 <= i < |frag| ==> IsIdle(frag[i])
    ensures Reaches(w.m, s, t) && Start(w, t, pos + |frag|, n')
    ensures UpTo(w.Text(), pos + |frag|) <= Max(UpTo(w.Text(), pos), hi)
    ensures Moved(s, t, s.act.regs)
  {
    var code := w.m.funcs[w.f];
    assert Idle(code, pos, pos + |frag|, |s.act.regs|) by {
      forall i | pos <= i < pos + |frag|
        ensures IsIdle(code[i]) && MaxLvid(code[i]) < |s.act.regs|
      {
        assert code[pos + (i - pos)] == frag[i - pos];
      }
    }
    t := IdleRun(w.m, s, w.f, pos, pos + |frag|, false);
    StartMoves(w, s, t, pos, n, frag, hi, n');
  }

  lemma StartIdle(w: Site, s: State, pos: nat, n: nat, frag: Code, n': nat) returns (t: State)
    requires Start(w, s, pos, n) && Stands(w, pos, frag) && Flat(frag, w.top) && n <= n'
    requires forall i :: 0 <= i < |frag| ==> IsIdle(frag[i])
    ensures Reaches(w.m, s, t) && Start(w, t, pos + |frag|, n')
    ensures UpTo(w.Text(), pos + |frag|) <= UpTo(w.Text(), pos)
    ensures Moved(s, t, s.act.regs)
  {
    FlatFits(frag, n, w.top);
    t := StartThrough(w, s, pos, n, frag, n, n');
    UpToFrag(w.Text(), pos, frag, |frag|, 0);
  }

  ghost predicate Holds(s: State, lvid: nat, v: u64) { lvid < |s.act.regs| && s.act.regs[lvid] == v }

  // Only the cursor has moved, and possibly the registers
  ghost predicate Moved(s: State, t: State, regs: seq<u64>) {
    t == s.(act := t.act) && t.act.regs == regs && t.act.func == s.act.func
  }

  lemma MovedKeeps(s: State, t: State, n: nat)
    requires Moved(s, t, s.act.regs)
    ensures Keeps(s, t, n, {}) && t.trace == s.trace
  {
  }

  lemma AgreeSame(c: Ctx, env: Env, s: State, t: State)
    requires Agree(c, env, s.act.regs) && Moved(s, t, s.act.regs)
    ensures Agree(c, env, t.act.regs)
  {
  }

  // An operand was evaluated: either the evaluation stops there, or the fragment goes on after it
  lemma Operand(w: Site, s: State, t0: State, t1: State, pos: nat, e: Expr, n: nat, n1: nat, env: Env, out: ExprOut)
    requires ExprAt(w, t0, pos, e, n1, env) && Keeps(s, t0, n, {}) && n <= n1
    requires ExprDone(w, t0, t1, pos + |EmitExpr(e, w.c, n1).code|, EmitExpr(e, w.c, n1).lvid, n1, out)
    ensures out.ExprExit? ==> forall pos', lvid :: ExprDone(w, s, t1, pos', lvid, n, out)
    ensures out.Value? ==> var r := EmitExpr(e, w.c, n1);
      && n1 < r.lvid <= r.n
      && Start(w, t1, pos + |r.code|, r.n) && UpTo(w.Text(), pos + |r.code|) <= r.n
      && Agree(w.c, env, t1.act.regs) && Keeps(s, t1, n, {}) && Keeps(t0, t1, n1, {})
      && Holds(t1, r.lvid, out.v) && t1.trace == out.trace
  {
    hide EmitExpr;
    hide GoodExpr;
    var r := EmitExpr(e, w.c, n1);
    if out.Value? {
      ExprGrows(e, w.c, n1);
      ExprFits(e, w.c, n1, w.top);
      StartMoves(w, t0, t1, pos, n1, r.code, r.n, r.n);
      KeepsAgree(w.c, env, t0, t1, n1, {});
    } else {
      StoppedLater(w.m, s, t0, t1, w.f, w.c.hs, w.hp, n, n1, out.exit);
    }
  }

  lemma OperandAt(w: Site, s: State, pos: nat, e: Expr, n: nat, env: Env)
    requires Start(w, s, pos, n) && Stands(w, pos, EmitExpr(e, w.c, n).code)
    requires EmitExpr(e, w.c, n).n <= w.top && GoodExpr(w.p, e, w.c.names.Keys) && Agree(w.c, env, s.act.regs)
    ensures ExprAt(w, s, pos, e, n, env)
  {
    hide EmitExpr;
    hide GoodExpr;
  }

  // ---- functions called with less fuel ----

  // The function 'g' has just been entered
  ghost predicate Entered(p: seq<Func>, m: Program, s: State, g: nat, vs: seq<u64>) {
    && m.funcs == EmitAll(p) && Ordered(m) && g < |p| && |vs| == |p[g].params|
    && Ready(m, s, g, 1, false) && CanReturn(s)
    && EmitBody(p[g]).n > |vs| && s.act.regs == Entry(EmitBody(p[g]).n + 1, m.fill, vs)
  }

  ghost predicate Answered(m: Program, s: State, t: State, out: StmtOut) {
    && t.trace == out.trace
    && match out
       case Returned(v, _) => Popped(s, t, v, false)
       case StmtExit(Unwound(atomid, error), _, _) =>
         Popped(s, t, t.retval, true) && t.error == error && t.errorType == atomid
       case StmtExit(x, _, _) => !x.Caught? && CutShort(m, t, x)
       case _ => false
  }

  ghost predicate SlowStmt(m: Program, s: State, out: StmtOut, fuel: int) {
    out.StmtExit? && out.exit == Timeout ==> Goes(m, s, fuel)
  }

  lemma StmtSlowAfter(m: Program, s: State, t: State, out: StmtOut, fuel: int)
    requires Reaches(m, s, t) && SlowStmt(m, t, out, fuel)
    ensures SlowStmt(m, s, out, fuel)
    ensures s != t ==> SlowStmt(m, s, out, fuel + 1) && SlowStmt(m, s, out, fuel + 2)
  {
    if Goes(m, t, fuel) {
      GoesOn(m, s, t, fuel);
    }
  }

  lemma StmtInTime(m: Program, s: State, out: StmtOut, fuel: int)
    requires out.StmtExit? ==> out.exit != Timeout
    ensures SlowStmt(m, s, out, fuel)
  {
  }

  lemma SlowLess(m: Program, s: State, out: StmtOut, fuel: int)
    requires SlowStmt(m, s, out, fuel)
    ensures SlowStmt(m, s, out, fuel - 1)
  {
  }

  lemma StmtSlow(m: Program, s: State, out: ExprOut, env: Env, fuel: int)
    requires SlowExpr(m, s, out, fuel) && out.ExprExit?
    ensures SlowStmt(m, s, StmtExit(out.exit, env, out.trace), fuel)
  {
  }

  ghost predicate CallWorks(p: seq<Func>, m: Program, g: nat, vs: seq<u64>, s: State, fuel: nat) {
    Entered(p, m, s, g, vs) ==>
      && SlowStmt(m, s, RunFunc(DoesAll(p), g, vs, s.trace, fuel), fuel - 1)
      && exists t :: Reaches(m, s, t) && Answered(m, s, t, RunFunc(DoesAll(p), g, vs, s.trace, fuel))
  }

  // Every call with less fuel does what its function means
  ghost predicate CallsBelow(p: seq<Func>, m: Program, fuel: nat) {
    forall k: nat, g, vs, s :: k < fuel ==> CallWorks(p, m, g, vs, s, k)
  }
}
