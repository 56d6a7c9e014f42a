// The code emitted for a statement does what the statement means: blocks, declarations, branches, loops, and blocks
// with a handler of errors. It ends right after the fragment, at the entrance of a handler in scope, out of the
// function or at a fault, with the registers of the names in scope holding their values, and the events of the
// meaning in the same order.
module Statements {
  import opened Isa
  import opened Jumps
  import opened Machine
  import opened Handlers
  import opened Source
  import opened Emitter
  import opened Layout
  import opened Untidy
  import opened Running
  import opened Dispatching
  import opened Correspondence
  import opened Branching
  import opened Expressions
  import opened Tails
  import opened Simple

  // ---- one level of the meaning of a statement ----

  lemma UnfoldBlockRun(p: seq<Func>, st: Stmt, env: Env, h: Shield, trace: seq<Event>, fuel: nat)
    ensures st.Skip? ==> RunStmt(p, st, env, h, trace, fuel) == Normal(env, trace)
    ensures st.Block? ==> RunStmt(p, st, env, h, trace, fuel) == RunStmt(p, st.s, env, h, trace, fuel)
    ensures st.Seq? ==> var o := RunStmt(p, st.a, env, h, trace, fuel);
      RunStmt(p, st, env, h, trace, fuel) == if o.Normal? then RunStmt(p, st.b, o.env, h, o.trace, fuel) else o
    ensures st.Let? ==> var o := RunExpr(p, st.e, env, h, trace, fuel);
      RunStmt(p, st, env, h, trace, fuel)
      == if o.Value? then Hide(RunStmt(p, st.s, env[st.x := o.v], h, o.trace, fuel), st.x, env)
         else StmtExit(o.exit, env, o.trace)
  {
    hide RunExpr;
  }

  lemma UnfoldBranchRun(p: seq<Func>, st: Stmt, env: Env, h: Shield, trace: seq<Event>, fuel: nat)
    ensures st.If? ==> var o := RunExpr(p, st.c, env, h, trace, fuel);
      RunStmt(p, st, env, h, trace, fuel)
      == if o.ExprExit? then StmtExit(o.exit, env, o.trace)
         else if o.v != 0 then RunStmt(p, st.t, env, h, o.trace, fuel) else Normal(env, o.trace)
    ensures st.IfElse? ==> var o := RunExpr(p, st.c, env, h, trace, fuel);
      RunStmt(p, st, env, h, trace, fuel)
      == if o.ExprExit? then StmtExit(o.exit, env, o.trace)
         else RunStmt(p, if o.v != 0 then st.t else st.f, env, h, o.trace, fuel)
  {
    hide RunExpr;
  }

  lemma UnfoldLoopRun(p: seq<Func>, st: Stmt, env: Env, h: Shield, trace: seq<Event>, fuel: nat)
    requires st.While? || st.DoWhile?
    ensures fuel == 0 ==> var o := RunStmt(p, st, env, h, trace, fuel);
      o == StmtExit(Timeout, env, trace)
    ensures fuel > 0 && st.While? ==> var o := RunExpr(p, st.c, env, h, trace, fuel);
      RunStmt(p, st, env, h, trace, fuel)
      == if o.ExprExit? then StmtExit(o.exit, env, o.trace)
         else if o.v == 0 then Normal(env, o.trace)
         else var b := RunStmt(p, st.s, env, h, o.trace, fuel);
           if b.Normal? then RunStmt(p, st, b.env, h, b.trace, fuel - 1) else b
    ensures fuel > 0 && st.DoWhile? ==> var b := RunStmt(p, st.s, env, h, trace, fuel);
      RunStmt(p, st, env, h, trace, fuel)
      == if !b.Normal? then b
         else var o := RunExpr(p, st.c, b.env, h, b.trace, fuel);
           if o.ExprExit? then StmtExit(o.exit, b.env, o.trace)
           else if o.v == 0 then Normal(b.env, o.trace)
           else RunStmt(p, st, b.env, h, o.trace, fuel - 1)
  {
    hide RunExpr;
  }

  // The same of what the code does

  lemma DoesBlockRun(q: seq<Func>, st: Stmt, env: Env, h: Shield, trace: seq<Event>, fuel: nat)
    ensures st.Skip? ==> RunStmt(q, Does(st), env, h, trace, fuel) == Normal(env, trace)
    ensures st.Block? ==>
      RunStmt(q, Does(st), env, h, trace, fuel) == RunStmt(q, Does(st.s), env, h, trace, fuel)
    ensures st.Seq? ==> var o := RunStmt(q, Does(st.a), env, h, trace, fuel);
      RunStmt(q, Does(st), env, h, trace, fuel)
      == if o.Normal? then RunStmt(q, Does(st.b), o.env, h, o.trace, fuel) else o
    ensures st.Let? ==> var o := RunExpr(q, st.e, env, h, trace, fuel);
      RunStmt(q, Does(st), env, h, trace, fuel)
      == if o.Value? then Hide(RunStmt(q, Does(st.s), env[st.x := o.v], h, o.trace, fuel), st.x, env)
         else StmtExit(o.exit, env, o.trace)
  {
    UnfoldBlockRun(q, Does(st), env, h, trace, fuel);
    hide RunStmt;
    hide RunExpr;
  }

  lemma DoesBranchRun(q: seq<Func>, st: Stmt, env: Env, h: Shield, trace: seq<Event>, fuel: nat)
    ensures st.If? ==> var o := RunExpr(q, st.c, env, h, trace, fuel);
      RunStmt(q, Does(st), env, h, trace, fuel)
      == if o.ExprExit? then StmtExit(o.exit, env, o.trace)
         else if o.v != 0 then RunStmt(q, Does(st.t), env, h, o.trace, fuel) else Normal(env, o.trace)
    ensures st.IfElse? ==> var o := RunExpr(q, st.c, env, h, trace, fuel);
      RunStmt(q, Does(st), env, h, trace, fuel)
      == if o.ExprExit? then StmtExit(o.exit, env, o.trace)
         else if o.v != 0 then RunStmt(q, Does(st.t), env, h, o.trace, fuel)
         else if EndsWithHandler(st.t) then Normal(env, o.trace)
         else RunStmt(q, Does(st.f), env, h, o.trace, fuel)
  {
    UnfoldBranchRun(q, Does(st), env, h, trace, fuel);
    hide RunStmt;
    hide RunExpr;
    hide EndsWithHandler;
  }

  lemma DoesLoopRun(q: seq<Func>, st: Stmt, env: Env, h: Shield, trace: seq<Event>, fuel: nat)
    requires st.While? || st.DoWhile?
    ensures fuel == 0 ==> var o := RunStmt(q, Does(st), env, h, trace, fuel);
      o == StmtExit(Timeout, env, trace)
    ensures fuel > 0 && st.While? ==> var o := RunExpr(q, st.c, env, h, trace, fuel);
      RunStmt(q, Does(st), env, h, trace, fuel)
      == if o.ExprExit? then StmtExit(o.exit, env, o.trace)
         else if o.v == 0 then
           if EndsWithHandler(st.s) then RunStmt(q, Does(st), env, h, o.trace, fuel - 1) else Normal(env, o.trace)
         else var b := RunStmt(q, Does(st.s), env, h, o.trace, fuel);
           if b.Normal? then RunStmt(q, Does(st), b.env, h, b.trace, fuel - 1) else b
    ensures fuel > 0 && st.DoWhile? ==> var b := RunStmt(q, Does(st.s), env, h, trace, fuel);
      RunStmt(q, Does(st), env, h, trace, fuel)
      == if !b.Normal? then b
         else var o := RunExpr(q, st.c, b.env, h, b.trace, fuel);
           if o.ExprExit? then StmtExit(o.exit, b.env, o.trace)
           else if o.v == 0 then Normal(b.env, o.trace)
           else RunStmt(q, Does(st), b.env, h, o.trace, fuel - 1)
  {
    UnfoldLoopRun(q, Does(st), env, h, trace, fuel);
    if st.While? {
      UnfoldBranchRun(q, If(st.c, Does(st.s)), env, h, trace, fuel);
      assert RunExpr(q, Const(1), env, h, trace, fuel) == Value(1, trace);
    }
    hide RunStmt;
    hide RunExpr;
    hide EndsWithHandler;
  }

  lemma DoesFailRun(q: seq<Func>, st: Stmt, env: Env, h: Shield, trace: seq<Event>, fuel: nat)
    requires st.OnFail?
    ensures EndsWithHandler(st.h) ==> RunStmt(q, Does(st), env, h, trace, fuel) == Normal(env, trace)
    ensures !EndsWithHandler(st.h) ==> var o := RunStmt(q, Does(st.s), env, h.With(st.atomid), trace, fuel);
      RunStmt(q, Does(st), env, h, trace, fuel)
      == if o.StmtExit? && o.exit.Caught? && o.exit.k == |h.types| then HandlerRun(q, st, Does(st.h), h, fuel, o) else o
  {
    hide EndsWithHandler;
    if EndsWithHandler(st.h) {
      UnfoldBlockRun(q, Does(st), env, h, trace, fuel);
    } else {
      UnfoldFailRun(q, Does(st), env, h, trace, fuel);
    }
  }

  // The statement has run, and the fragment goes on after it
  lemma AfterStmt(w: Site, s: State, t0: State, t1: State, pos: nat, st: Stmt, n: nat, n1: nat, env: Env, out: StmtOut)
    requires StmtAt(w, t0, pos, st, n1, env) && Keeps(s, t0, n, Slots(w.c)) && n <= n1
    requires StmtDone(w, t0, t1, pos + |EmitStmt(st, w.c, n1).code|, n1, out)
    ensures !out.Normal? ==> forall pos' :: StmtDone(w, s, t1, pos', n, out)
    ensures out.Normal? ==> var r := EmitStmt(st, w.c, n1);
      && Start(w, t1, pos + |r.code|, r.n) && n1 <= r.n && (!DrawsNothing(st) ==> n1 < r.n)
      && UpTo(w.Text(), pos + |r.code|) <= (if UpTo(w.Text(), pos) < LastLabel(st, r.n) then LastLabel(st, r.n)
                                            else UpTo(w.Text(), pos))
      && Keeps(s, t1, n, Slots(w.c)) && Agree(w.c, out.env, t1.act.regs) && t1.trace == out.trace
  {
    hide *;
    var r := EmitStmt(st, w.c, n1);
    StmtAtMeans(w, t0, pos, st, n1, env);
    if out.Normal? {
      NormalMeans(w, t0, t1, pos + |r.code|, n1, out);
      StartFits(w, t0, pos, n1);
      StmtFits(st, w.c, n1, w.top);
      StmtGrows(st, w.c, n1);
      LastLabelBound(st, r.n);
      KeepsSize(t0, t1, n1, Slots(w.c));
      StartMoves(w, t0, t1, pos, n1, r.code, LastLabel(st, r.n), r.n);
      MaxMeans(UpTo(w.Text(), pos), LastLabel(st, r.n));
      SlotsTrans(s, t0, t1, n, n1, Slots(w.c));
    } else {
      StopsLater(w, s, t0, t1, pos + |r.code|, n, n1, out);
    }
  }

  lemma MaxMeans(a: nat, b: nat)
    ensures Max(a, b) == if a < b then b else a
  {
  }

  lemma NormalMeans(w: Site, s: State, t: State, pos: nat, n: nat, out: StmtOut)
    requires out.Normal? && StmtDone(w, s, t, pos, n, out)
    ensures Ready(w.m, t, w.f, pos, false) && Keeps(s, t, n, Slots(w.c)) && Agree(w.c, out.env, t.act.regs)
    ensures t.trace == out.trace
  {
  }

  lemma StartFits(w: Site, s: State, pos: nat, n: nat)
    requires Start(w, s, pos, n)
    ensures FitsCtx(w.c, n) && w.f < |w.m.funcs| && pos <= |w.Text()| && UpTo(w.Text(), pos) <= n + 1 && Ordered(w.m)
  {
  }

  lemma KeepsSize(s: State, t: State, n: nat, except: set<nat>)
    requires Keeps(s, t, n, except)
    ensures t.callers == s.callers && |t.act.regs| == |s.act.regs|
  {
  }

  lemma SlotsTrans(s: State, t: State, u: State, n: nat, n': nat, slots: set<nat>)
    requires Keeps(s, t, n, slots) && Keeps(t, u, n', slots) && n <= n'
    ensures Keeps(s, u, n, slots)
  {
  }

  // The beginning of the statement is forgotten
  lemma StopsLater(w: Site, s: State, t0: State, t: State, pos0: nat, n: nat, n1: nat, out: StmtOut)
    requires !out.Normal? && StmtDone(w, t0, t, pos0, n1, out) && Keeps(s, t0, n, Slots(w.c)) && n <= n1
    ensures forall pos :: StmtDone(w, s, t, pos, n, out)
  {
  }

  lemma CallsFewer(p: seq<Func>, m: Program, fuel: nat, fuel': nat)
    requires CallsBelow(p, m, fuel) && fuel' <= fuel
    ensures CallsBelow(p, m, fuel')
  {
    hide CallWorks;
  }

  // ---- statements ----

  lemma {:induction false} SimStmt(w: Site, s: State, pos: nat, st: Stmt, n: nat, env: Env,
                                   fuel: nat) returns (t: State)
    requires StmtAt(w, s, pos, st, n, env)
    requires CallsBelow(w.p, w.m, fuel)
    ensures Reaches(w.m, s, t)
    ensures SlowStmt(w.m, s, RunStmt(DoesAll(w.p), Does(st), env, ShieldOf(w.c.hs), s.trace, fuel), fuel)
    ensures StmtDone(w, s, t, pos + |EmitStmt(st, w.c, n).code|, n,
                     RunStmt(DoesAll(w.p), Does(st), env, ShieldOf(w.c.hs), s.trace, fuel))
    decreases fuel, st, 3
  {
    hide *;
    IsScopeStmt(st);
    if st.Skip? {
      SkipDone(w, s, pos, st, n, env, fuel);
      ReachSelf(w.m, s);
      t := s;
    } else if st.Assign? || st.Assert? {
      t := SimCallStmt(w, s, pos, st, n, env, fuel);
    } else if st.Eval? || st.Observe? || st.Return? || st.Throw? {
      t := SimScopeStmt(w, s, pos, st, n, env, fuel);
    } else if st.Block? {
      t := SimBlock(w, s, pos, st, n, env, fuel);
    } else if st.Seq? {
      t := SimSeq(w, s, pos, st, n, env, fuel);
    } else if st.Let? {
      t := SimLet(w, s, pos, st, n, env, fuel);
    } else if st.If? {
      t := SimIf(w, s, pos, st, n, env, fuel);
    } else if st.IfElse? {
      t := SimIfElse(w, s, pos, st, n, env, fuel);
    } else if st.While? {
      t := SimWhile(w, s, pos, st, n, env, fuel);
    } else if st.DoWhile? {
      t := SimDoWhile(w, s, pos, st, n, env, fuel);
    } else {
      t := SimOnFail(w, s, pos, st, n, env, fuel);
    }
  }

  lemma SkipDone(w: Site, s: State, pos: nat, st: Stmt, n: nat, env: Env, fuel: nat)
    requires st.Skip? && StmtAt(w, s, pos, st, n, env)
    ensures SlowStmt(w.m, s, RunStmt(DoesAll(w.p), Does(st), env, ShieldOf(w.c.hs), s.trace, fuel), fuel)
    ensures StmtDone(w, s, s, pos + |EmitStmt(st, w.c, n).code|, n,
                     RunStmt(DoesAll(w.p), Does(st), env, ShieldOf(w.c.hs), s.trace, fuel))
  {
    hide GoodProgram;
    hide Scoped;
    hide Scene;
  }

  lemma BlockParts(w: Site, s: State, pos: nat, st: Stmt, n: nat)
    requires st.Block? && Stands(w, pos, EmitStmt(st, w.c, n).code)
    requires GoodStmt(w.p, st, w.c.names.Keys, ShieldOf(w.c.hs))
    ensures var a := EmitStmt(st.s, w.c, n);
      && Stands(w, pos, [ScopeBegin]) && Stands(w, pos + 1, a.code) && Stands(w, pos + 1 + |a.code|, [ScopeEnd])
      && EmitStmt(st, w.c, n) == EmittedStmt([ScopeBegin] + (a.code + [ScopeEnd]), a.n)
    ensures GoodStmt(w.p, st.s, w.c.names.Keys, ShieldOf(w.c.hs))
  {
    UnfoldBlock(st, w.c, n);
    hide EmitStmt;
    hide Stands;
    Split(w, pos, [ScopeBegin], EmitStmt(st.s, w.c, n).code + [ScopeEnd]);
    Split(w, pos + 1, EmitStmt(st.s, w.c, n).code, [ScopeEnd]);
  }

  lemma SimBlock(w: Site, s: State, pos: nat, st: Stmt, n: nat, env: Env, fuel: nat) returns (t: State)
    requires st.Block?
    requires StmtAt(w, s, pos, st, n, env)
    requires CallsBelow(w.p, w.m, fuel)
    ensures Reaches(w.m, s, t)
    ensures SlowStmt(w.m, s, RunStmt(DoesAll(w.p), Does(st), env, ShieldOf(w.c.hs), s.trace, fuel), fuel)
    ensures StmtDone(w, s, t, pos + |EmitStmt(st, w.c, n).code|, n,
                     RunStmt(DoesAll(w.p), Does(st), env, ShieldOf(w.c.hs), s.trace, fuel))
    decreases fuel, st, 2
  {
    hide *;
    StmtAtMeans(w, s, pos, st, n, env);
    BlockParts(w, s, pos, st, n);
    DoesBlockRun(DoesAll(w.p), st, env, ShieldOf(w.c.hs), s.trace, fuel);
    ScopeIdle(w, 0);
    var a := EmitStmt(st.s, w.c, n);
    var out := RunStmt(DoesAll(w.p), Does(st.s), env, ShieldOf(w.c.hs), s.trace, fuel);
    var t0 := StartIdle(w, s, pos, n, [ScopeBegin], n);
    MovedKeeps(s, t0, n);
    AgreeSame(w.c, env, s, t0);
    NoSlots(w, s, t0, n);
    StmtIsAt(w, t0, pos + 1, st.s, n, env);
    t := SimStmt(w, t0, pos + 1, st.s, n, env, fuel);
    ReachTrans(w.m, s, t0, t);
    StmtSlowAfter(w.m, s, t0, out, fuel);
    AfterStmt(w, s, t0, t, pos + 1, st.s, n, n, env, out);
    if out.Normal? {
      var t1 := StartIdle(w, t, pos + 1 + |a.code|, a.n, [ScopeEnd], a.n);
      ReachTrans(w.m, s, t, t1);
      NormalDone(w, s, t, t1, pos + 2 + |a.code|, a.n, n, out.env);
      t := t1;
    }
  }

  // Nothing is left to do
  lemma NormalDone(w: Site, s: State, t: State, t1: State, pos: nat, n1: nat, n: nat, env: Env)
    requires Start(w, t1, pos, n1) && Moved(t, t1, t.act.regs) && Keeps(s, t, n, Slots(w.c))
    requires Agree(w.c, env, t.act.regs)
    ensures StmtDone(w, s, t1, pos, n, Normal(env, t.trace))
  {
    hide Scene;
    hide Scoped;
    hide GoodProgram;
  }

  lemma SeqParts(w: Site, pos: nat, st: Stmt, n: nat)
    requires st.Seq? && Stands(w, pos, EmitStmt(st, w.c, n).code) && EmitStmt(st, w.c, n).n <= w.top
    requires GoodStmt(w.p, st, w.c.names.Keys, ShieldOf(w.c.hs))
    ensures var a := EmitStmt(st.a, w.c, n);
      var b := EmitStmt(st.b, w.c, a.n);
      && Stands(w, pos, a.code) && Stands(w, pos + |a.code|, b.code)
      && EmitStmt(st, w.c, n) == EmittedStmt(a.code + b.code, b.n) && a.n <= b.n <= w.top
    ensures GoodStmt(w.p, st.a, w.c.names.Keys, ShieldOf(w.c.hs))
    ensures GoodStmt(w.p, st.b, w.c.names.Keys, ShieldOf(w.c.hs))
  {
    UnfoldBlock(st, w.c, n);
    hide EmitStmt;
    hide Stands;
    var a := EmitStmt(st.a, w.c, n);
    StmtGrows(st.b, w.c, a.n);
    Split(w, pos, a.code, EmitStmt(st.b, w.c, a.n).code);
  }

  lemma SimSeq(w: Site, s: State, pos: nat, st: Stmt, n: nat, env: Env, fuel: nat) returns (t: State)
    requires st.Seq?
    requires StmtAt(w, s, pos, st, n, env)
    requires CallsBelow(w.p, w.m, fuel)
    ensures Reaches(w.m, s, t)
    ensures SlowStmt(w.m, s, RunStmt(DoesAll(w.p), Does(st), env, ShieldOf(w.c.hs), s.trace, fuel), fuel)
    ensures StmtDone(w, s, t, pos + |EmitStmt(st, w.c, n).code|, n,
                     RunStmt(DoesAll(w.p), Does(st), env, ShieldOf(w.c.hs), s.trace, fuel))
    decreases fuel, st, 2
  {
    hide *;
    StmtAtMeans(w, s, pos, st, n, env);
    SeqParts(w, pos, st, n);
    DoesBlockRun(DoesAll(w.p), st, env, ShieldOf(w.c.hs), s.trace, fuel);
    var a := EmitStmt(st.a, w.c, n);
    var out := RunStmt(DoesAll(w.p), Does(st.a), env, ShieldOf(w.c.hs), s.trace, fuel);
    KeepsSelf(s, n);
    NoSlots(w, s, s, n);
    StmtIsAt(w, s, pos, st.a, n, env);
    t := SimStmt(w, s, pos, st.a, n, env, fuel);
    AfterStmt(w, s, s, t, pos, st.a, n, n, env, out);
    if out.Normal? {
      StmtIsAt(w, t, pos + |a.code|, st.b, a.n, out.env);
      var t1 := SimStmt(w, t, pos + |a.code|, st.b, a.n, out.env, fuel);
      StmtSlowAfter(w.m, s, t, RunStmt(DoesAll(w.p), Does(st), env, ShieldOf(w.c.hs), s.trace, fuel), fuel);
      ReachTrans(w.m, s, t, t1);
      EndsAs(w, s, t, t1, pos + |EmitStmt(st, w.c, n).code|, n, a.n,
             RunStmt(DoesAll(w.p), Does(st.b), out.env, ShieldOf(w.c.hs), out.trace, fuel));
      t := t1;
    }
  }

  // The last part of a statement
  lemma EndsAs(w: Site, s: State, t0: State, t: State, pos: nat, n: nat, n1: nat, out: StmtOut)
    requires StmtDone(w, t0, t, pos, n1, out) && Keeps(s, t0, n, Slots(w.c)) && n <= n1
    ensures StmtDone(w, s, t, pos, n, out)
  {
  }

  // ---- declarations ----

  function Declared(w: Site, x: nat, lvid: nat): Site { w.(c := w.c.Declare(x, lvid)) }

  lemma LetParts(w: Site, pos: nat, st: Stmt, n: nat)
    requires st.Let? && Stands(w, pos, EmitStmt(st, w.c, n).code) && EmitStmt(st, w.c, n).n <= w.top
    requires GoodStmt(w.p, st, w.c.names.Keys, ShieldOf(w.c.hs))
    ensures var a := EmitExpr(st.e, w.c, n + 1);
      var w' := Declared(w, st.x, n + 1);
      var b := EmitStmt(st.s, w'.c, a.n);
      && Stands(w, pos, [Stackalloc(n + 1)]) && Stands(w, pos + 1, a.code)
      && Stands(w, pos + 1 + |a.code|, [Store(n + 1, a.lvid)]) && Stands(w', pos + 2 + |a.code|, b.code)
      && |EmitStmt(st, w.c, n).code| == 2 + |a.code| + |b.code| && n + 1 < a.n <= b.n <= w.top
      && GoodStmt(w'.p, st.s, w'.c.names.Keys, ShieldOf(w'.c.hs))
      && w'.p == w.p && w'.m == w.m && w'.c.hs == w.c.hs && w'.top == w.top
    ensures GoodExpr(w.p, st.e, w.c.names.Keys)
  {
    UnfoldBlock(st, w.c, n);
    hide EmitStmt;
    hide EmitExpr;
    hide GoodExpr;
    var w' := Declared(w, st.x, n + 1);
    var a := EmitExpr(st.e, w.c, n + 1);
    var b := EmitStmt(st.s, w'.c, a.n);
    ExprGrows(st.e, w.c, n + 1);
    StmtGrows(st.s, w'.c, a.n);
    assert w'.c.names.Keys == w.c.names.Keys + {st.x};
    Split(w, pos, [Stackalloc(n + 1)], a.code + ([Store(n + 1, a.lvid)] + b.code));
    Split(w, pos + 1, a.code, [Store(n + 1, a.lvid)] + b.code);
    Split(w, pos + 1 + |a.code|, [Store(n + 1, a.lvid)], b.code);
  }

  lemma DeclaredStart(w: Site, s: State, pos: nat, n: nat, k: nat, x: nat)
    requires Start(w, s, pos, k) && n < k && FitsHandlers(w.c.hs, n) && forall y :: y in w.c.names ==> w.c.names[y] <= n
    ensures Start(Declared(w, x, n + 1), s, pos, k)
  {
    hide GoodProgram;
    hide HandlerAt;
    hide UpTo;
    HandlersBound(w.c.hs, n);
    hide FitsHandlers;
  }

  lemma HandlersBound(hs: Stack, n: nat)
    requires FitsHandlers(hs, n)
    ensures forall k :: 0 <= k < hs.Size() ==> hs.At(k).target + 1 <= n
  {
  }

  lemma DeclaredAgree(w: Site, env: Env, s: State, n: nat, x: nat, v: u64)
    requires Agree(w.c, env, s.act.regs) && Holds(s, n + 1, v)
    ensures Agree(Declared(w, x, n + 1).c, env[x := v], s.act.regs)
  {
  }

  // The name goes out of scope
  lemma DeclaredDone(w: Site, s: State, t0: State, t: State, pos: nat, n: nat, k: nat, x: nat, env: Env, out: StmtOut)
    requires StmtDone(Declared(w, x, n + 1), t0, t, pos, k, out) && Keeps(s, t0, n, Slots(w.c)) && n <= k
    requires Agree(w.c, env, t0.act.regs) && Scoped(w.c, n)
    ensures StmtDone(w, s, t, pos, n, Hide(out, x, env))
  {
    hide *;
    if out.Normal? {
      DeclaredNormal(w, s, t0, t, pos, n, k, x, env, out);
    } else if out.StmtExit? && out.exit.Caught? {
      DeclaredCaught(w, s, t0, t, pos, n, k, x, env, out);
    } else {
      DeclaredGone(w, s, t0, t, pos, n, k, x, env, out);
    }
  }

  lemma DeclaredGone(w: Site, s: State, t0: State, t: State, pos: nat, n: nat, k: nat, x: nat, env: Env, out: StmtOut)
    requires StmtDone(Declared(w, x, n + 1), t0, t, pos, k, out) && Keeps(s, t0, n, Slots(w.c))
    requires out.Returned? || (out.StmtExit? && !out.exit.Caught?)
    ensures StmtDone(w, s, t, pos, n, Hide(out, x, env))
  {
    hide Agree;
    hide Slots;
    hide Ready;
  }

  lemma DeclaredNormal(w: Site, s: State, t0: State, t: State, pos: nat, n: nat, k: nat, x: nat, env: Env, out: StmtOut)
    requires StmtDone(Declared(w, x, n + 1), t0, t, pos, k, out) && Keeps(s, t0, n, Slots(w.c)) && n <= k
    requires Agree(w.c, env, t0.act.regs) && Scoped(w.c, n) && out.Normal?
    ensures StmtDone(w, s, t, pos, n, Hide(out, x, env))
  {
    NormalMeans(Declared(w, x, n + 1), t0, t, pos, k, out);
    hide Scoped;
    hide Agree;
    hide Restore;
    DeclaredKeeps(w, s, t0, t, n, k, x, {});
    DeclaredRestore(w, t0, t, n, k, x, env, out.env, {});
  }

  lemma DeclaredCaught(w: Site, s: State, t0: State, t: State, pos: nat, n: nat, k: nat, x: nat, env: Env, out: StmtOut)
    requires StmtDone(Declared(w, x, n + 1), t0, t, pos, k, out) && Keeps(s, t0, n, Slots(w.c)) && n <= k
    requires Agree(w.c, env, t0.act.regs) && Scoped(w.c, n) && out.StmtExit? && out.exit.Caught?
    ensures StmtDone(w, s, t, pos, n, Hide(out, x, env))
  {
    hide *;
    DeclaredSite(w, x, n + 1);
    StoppedMeans(Declared(w, x, n + 1), t0, t, pos, k, out);
    ScopedApart(w.c, n, out.exit.k);
    var except := {w.c.hs.At(out.exit.k).target + 1};
    DeclaredKeeps(w, s, t0, t, n, k, x, except);
    DeclaredRestore(w, t0, t, n, k, x, env, out.env, except);
    HideExit(out, x, env);
    StoppedIs(w, s, t, pos, n, Hide(out, x, env));
  }

  lemma DeclaredSite(w: Site, x: nat, lvid: nat)
    ensures var w' := Declared(w, x, lvid);
      w'.m == w.m && w'.f == w.f && w'.hp == w.hp && w'.c.hs == w.c.hs
  {
  }

  lemma ScopedApart(c: Ctx, n: nat, k: nat)
    requires Scoped(c, n) && k < c.hs.Size()
    ensures forall y :: y in c.names ==> c.names[y] !in {c.hs.At(k).target + 1}
  {
  }

  lemma HideExit(out: StmtOut, x: nat, env: Env)
    requires out.StmtExit?
    ensures Hide(out, x, env) == StmtExit(out.exit, Restore(out.env, x, env), out.trace)
  {
    hide Restore;
  }

  lemma StoppedMeans(w: Site, s: State, t: State, pos: nat, n: nat, out: StmtOut)
    requires out.StmtExit? && out.exit.Caught? && StmtDone(w, s, t, pos, n, out)
    ensures out.exit.k < |w.hp| && |w.hp| == w.c.hs.Size() && t.trace == out.trace
    ensures Ready(w.m, t, w.f, w.hp[out.exit.k] + 1, false) && Agree(w.c, out.env, t.act.regs)
    ensures Keeps(s, t, n, Slots(w.c) + {w.c.hs.At(out.exit.k).target + 1})
    ensures out.exit.k < |w.c.hs.typed| ==> Holds(t, w.c.hs.At(out.exit.k).target + 1, out.exit.error)
  {
    hide Ready;
    hide Keeps;
    hide Agree;
    hide Slots;
    hide Holds;
  }

  lemma StoppedIs(w: Site, s: State, t: State, pos: nat, n: nat, out: StmtOut)
    requires out.StmtExit? && out.exit.Caught? && t.trace == out.trace
    requires out.exit.k < |w.hp| && |w.hp| == w.c.hs.Size()
    requires Ready(w.m, t, w.f, w.hp[out.exit.k] + 1, false) && Agree(w.c, out.env, t.act.regs)
    requires Keeps(s, t, n, Slots(w.c) + {w.c.hs.At(out.exit.k).target + 1})
    requires out.exit.k < |w.c.hs.typed| ==> Holds(t, w.c.hs.At(out.exit.k).target + 1, out.exit.error)
    ensures StmtDone(w, s, t, pos, n, out)
  {
    hide Ready;
    hide Keeps;
    hide Agree;
    hide Slots;
    hide Holds;
  }

  lemma DeclaredKeeps(w: Site, s: State, t0: State, t: State, n: nat, k: nat, x: nat, except: set<nat>)
    requires Keeps(s, t0, n, Slots(w.c)) && Keeps(t0, t, k, Slots(Declared(w, x, n + 1).c) + except) && n <= k
    ensures Keeps(s, t, n, Slots(w.c) + except)
  {
    DeclaredSlots(w, n, x);
  }

  lemma DeclaredSlots(w: Site, n: nat, x: nat)
    ensures forall y :: y in Slots(Declared(w, x, n + 1).c) ==> y in Slots(w.c) || y == n + 1
  {
  }

  lemma DeclaredRestore(w: Site, t0: State, t: State, n: nat, k: nat, x: nat, env: Env, env': Env, except: set<nat>)
    requires Keeps(t0, t, k, Slots(Declared(w, x, n + 1).c) + except) && n <= k
    requires Agree(w.c, env, t0.act.regs) && Scoped(w.c, n) && forall y :: y in w.c.names ==> w.c.names[y] !in except
    requires Agree(Declared(w, x, n + 1).c, env', t.act.regs)
    ensures Agree(w.c, Restore(env', x, env), t.act.regs)
  {
    var c' := Declared(w, x, n + 1).c;
    forall y | y in w.c.names
      ensures y in Restore(env', x, env) && w.c.names[y] < |t.act.regs|
      ensures t.act.regs[w.c.names[y]] == Restore(env', x, env)[y]
    {
      if y != x {
        assert c'.names[y] == w.c.names[y];
      } else {
        assert w.c.names[y] !in Slots(c');
      }
    }
  }

  lemma StartScoped(w: Site, s: State, pos: nat, n: nat)
    requires Start(w, s, pos, n)
    ensures Scoped(w.c, n) && FitsHandlers(w.c.hs, n) && forall y :: y in w.c.names ==> w.c.names[y] <= n
    ensures |w.hp| == w.c.hs.Size()
  {
  }

  lemma SimLet(w: Site, s: State, pos: nat, st: Stmt, n: nat, env: Env, fuel: nat) returns (t: State)
    requires st.Let?
    requires StmtAt(w, s, pos, st, n, env)
    requires CallsBelow(w.p, w.m, fuel)
    ensures Reaches(w.m, s, t)
    ensures SlowStmt(w.m, s, RunStmt(DoesAll(w.p), Does(st), env, ShieldOf(w.c.hs), s.trace, fuel), fuel)
    ensures StmtDone(w, s, t, pos + |EmitStmt(st, w.c, n).code|, n,
                     RunStmt(DoesAll(w.p), Does(st), env, ShieldOf(w.c.hs), s.trace, fuel))
    decreases fuel, st, 2
  {
    hide *;
    StmtAtMeans(w, s, pos, st, n, env);
    LetParts(w, pos, st, n);
    DoesBlockRun(DoesAll(w.p), st, env, ShieldOf(w.c.hs), s.trace, fuel);
    ScopeIdle(w, n + 1);
    StartScoped(w, s, pos, n);
    var a := EmitExpr(st.e, w.c, n + 1);
    var out := RunExpr(DoesAll(w.p), st.e, env, ShieldOf(w.c.hs), s.trace, fuel);
    var t0 := StartIdle(w, s, pos, n, [Stackalloc(n + 1)], n + 1);
    MovedKeeps(s, t0, n);
    AgreeSame(w.c, env, s, t0);
    OperandAt(w, t0, pos + 1, st.e, n + 1, env);
    t := SimExpr(w, t0, pos + 1, st.e, n + 1, env, fuel);
    ReachTrans(w.m, s, t0, t);
    Operand(w, s, t0, t, pos + 1, st.e, n, n + 1, env, out);
    if out.Value? {
      var t1 := CopyStep(w, t, pos + 1 + |a.code|, a.n, n + 1, a.lvid, out.v);
      ReachTrans(w.m, s, t, t1);
      StartSize(w, t, pos + 1 + |a.code|, a.n);
      CopyKeeps(w.c, env, s, t, t1, n, n + 1, out.v);
      t := SimScope(w, s, t1, pos + 2 + |a.code|, st, a.n, n, env, fuel, out.v);
      StmtSlowAfter(w.m, s, t1, RunStmt(DoesAll(w.p), Does(st), env, ShieldOf(w.c.hs), s.trace, fuel), fuel);
      ReachTrans(w.m, s, t1, t);
    } else {
      KeepsSelf(s, n);
      NoSlots(w, s, s, n);
      SlowAfter(w.m, s, t0, out, fuel);
      StmtSlow(w.m, s, out, env, fuel);
      ExprStops(w, s, s, t, pos, n, n, env, out);
    }
  }

  lemma HideSlow(m: Program, s: State, out: StmtOut, x: nat, env: Env, fuel: nat)
    requires SlowStmt(m, s, out, fuel)
    ensures SlowStmt(m, s, Hide(out, x, env), fuel)
  {
  }

  // The scope of the name
  lemma SimScope(w: Site, s: State, t0: State, pos: nat, st: Stmt, k: nat, n: nat, env: Env, fuel: nat, v: u64)
    returns (t: State)
    requires st.Let? && Start(w, t0, pos, k) && n < k && Scoped(w.c, n) && FitsHandlers(w.c.hs, n)
    requires forall y :: y in w.c.names ==> w.c.names[y] <= n
    requires Keeps(s, t0, n, {}) && Agree(w.c, env, t0.act.regs) && Holds(t0, n + 1, v)
    requires var w' := Declared(w, st.x, n + 1);
      && w'.p == w.p && w'.m == w.m && w'.c.hs == w.c.hs && w'.top == w.top
      && Stands(w', pos, EmitStmt(st.s, w'.c, k).code) && EmitStmt(st.s, w'.c, k).n <= w'.top
      && GoodStmt(w'.p, st.s, w'.c.names.Keys, ShieldOf(w'.c.hs))
    requires CallsBelow(w.p, w.m, fuel)
    ensures Reaches(w.m, t0, t)
    ensures SlowStmt(w.m, t0, Hide(RunStmt(DoesAll(w.p), Does(st.s), env[st.x := v], ShieldOf(w.c.hs), t0.trace, fuel),
                                   st.x, env), fuel)
    ensures StmtDone(w, s, t, pos + |EmitStmt(st.s, Declared(w, st.x, n + 1).c, k).code|, n,
                     Hide(RunStmt(DoesAll(w.p), Does(st.s), env[st.x := v], ShieldOf(w.c.hs), t0.trace, fuel), st.x,
                          env))
    decreases fuel, st, 1
  {
    hide *;
    var w' := Declared(w, st.x, n + 1);
    var out := RunStmt(DoesAll(w.p), Does(st.s), env[st.x := v], ShieldOf(w.c.hs), t0.trace, fuel);
    DeclaredStart(w, t0, pos, n, k, st.x);
    DeclaredAgree(w, env, t0, n, st.x, v);
    StmtIsAt(w', t0, pos, st.s, k, env[st.x := v]);
    t := SimStmt(w', t0, pos, st.s, k, env[st.x := v], fuel);
    HideSlow(w.m, t0, out, st.x, env, fuel);
    NoSlots(w, s, t0, n);
    DeclaredDone(w, s, t0, t, pos + |EmitStmt(st.s, w'.c, k).code|, n, k, st.x, env, out);
  }

  // ---- branches ----

  lemma TestSlots(c: Ctx, env: Env, s0: State, s: State, t: State, n: nat, v: u64, slots: set<nat>)
    requires |s.act.regs| > 0 && (Moved(s, t, s.act.regs[0 := v]) || Moved(s, t, s.act.regs)) && Keeps(s0, s, n, slots)
    requires Agree(c, env, s.act.regs) && forall x :: x in c.names ==> c.names[x] > 0
    ensures Keeps(s0, t, n, slots) && Agree(c, env, t.act.regs) && t.trace == s.trace
  {
  }

  // The body behind a test which holds
  lemma SimBody(w: Site, s0: State, s: State, pos: nat, cond: nat, id: nat, st: Stmt, k: nat, n: nat, env: Env,
                fuel: nat, v: u64) returns (t: State)
    requires Start(w, s, pos, k) && UpTo(w.Text(), pos) <= k && Keeps(s0, s, n, Slots(w.c))
    requires Agree(w.c, env, s.act.regs)
    requires v != 0 && Holds(s, cond, v) && cond <= w.top && n <= k
    requires Stands(w, pos, [Jz(cond, 0, id)]) && Stands(w, pos + 1, [ScopeBegin])
    requires Stands(w, pos + 2, EmitStmt(st, w.c, k).code) && EmitStmt(st, w.c, k).n <= w.top
    requires GoodStmt(w.p, st, w.c.names.Keys, ShieldOf(w.c.hs)) && CallsBelow(w.p, w.m, fuel)
    ensures Reaches(w.m, s, t)
    ensures SlowStmt(w.m, s, RunStmt(DoesAll(w.p), Does(st), env, ShieldOf(w.c.hs), s.trace, fuel), fuel)
    ensures BodyDone(w, s0, t, pos + 2, EmitStmt(st, w.c, k), st, n,
                     RunStmt(DoesAll(w.p), Does(st), env, ShieldOf(w.c.hs), s.trace, fuel))
    decreases fuel, st, 4
  {
    hide *;
    StartSize(w, s, pos, k);
    SlotsBound(w, s, pos, k);
    TestTaken(s, cond, v, id);
    ScopeIdle(w, 0);
    var t1 := JumpPassed(w, s, pos, k, Jz(cond, 0, id));
    var t2 := StartIdle(w, t1, pos + 1, k, [ScopeBegin], k);
    ReachTrans(w.m, s, t1, t2);
    MovedTrans(s, t1, t2);
    TestSlots(w.c, env, s0, s, t2, n, 0, Slots(w.c));
    StmtIsAt(w, t2, pos + 2, st, k, env);
    t := SimStmt(w, t2, pos + 2, st, k, env, fuel);
    ReachTrans(w.m, s, t2, t);
    StmtSlowAfter(w.m, s, t2, RunStmt(DoesAll(w.p), Does(st), env, ShieldOf(w.c.hs), s.trace, fuel), fuel);
    var out := RunStmt(DoesAll(w.p), Does(st), env, ShieldOf(w.c.hs), s.trace, fuel);
    AfterStmt(w, s0, t2, t, pos + 2, st, n, k, env, out);
    LastLabelBound(st, EmitStmt(st, w.c, k).n);
    BodyMeans(w, s0, t, pos + 2, EmitStmt(st, w.c, k), st, n, out);
  }

  ghost predicate BodyDone(w: Site, s: State, t: State, pos: nat, r: EmittedStmt, st: Stmt, n: nat, out: StmtOut) {
    && (!out.Normal? ==> forall pos' :: StmtDone(w, s, t, pos', n, out))
    && (out.Normal? ==>
          && Start(w, t, pos + |r.code|, r.n) && UpTo(w.Text(), pos + |r.code|) <= LastLabel(st, r.n)
          && Keeps(s, t, n, Slots(w.c)) && Agree(w.c, out.env, t.act.regs) && t.trace == out.trace)
  }

  lemma BodyMeans(w: Site, s: State, t: State, pos: nat, r: EmittedStmt, st: Stmt, n: nat, out: StmtOut)
    requires !out.Normal? ==> forall pos' :: StmtDone(w, s, t, pos', n, out)
    requires out.Normal? ==>
      && Start(w, t, pos + |r.code|, r.n) && UpTo(w.Text(), pos + |r.code|) <= LastLabel(st, r.n)
      && Keeps(s, t, n, Slots(w.c)) && Agree(w.c, out.env, t.act.regs) && t.trace == out.trace
    ensures BodyDone(w, s, t, pos, r, st, n, out)
  {
    hide Start;
    hide StmtDone;
    hide Keeps;
    hide Agree;
    hide UpTo;
  }

  lemma BodyUsed(w: Site, s: State, t: State, pos: nat, r: EmittedStmt, st: Stmt, n: nat, out: StmtOut)
    requires BodyDone(w, s, t, pos, r, st, n, out)
    ensures !out.Normal? ==> forall pos' :: StmtDone(w, s, t, pos', n, out)
    ensures out.Normal? ==>
      && Start(w, t, pos + |r.code|, r.n) && UpTo(w.Text(), pos + |r.code|) <= LastLabel(st, r.n)
      && Keeps(s, t, n, Slots(w.c)) && Agree(w.c, out.env, t.act.regs) && t.trace == out.trace
  {
    hide Start;
    hide StmtDone;
    hide Keeps;
    hide Agree;
    hide UpTo;
  }

  // A condition was cut short, or it has a value
  lemma ConditionStops(w: Site, s: State, t0: State, t: State, pos0: nat, pos: nat, n: nat, n1: nat, n': nat, cond: nat,
                       env: Env, out: ExprOut)
    requires ConditionDone(w, t0, t, pos, n1, n', cond, env, out) && Keeps(s, t0, n, Slots(w.c)) && n <= n1
    requires Start(w, t0, pos0, n1) && Agree(w.c, env, t0.act.regs)
    ensures out.ExprExit? ==> forall pos' :: StmtDone(w, s, t, pos', n, StmtExit(out.exit, env, out.trace))
    ensures out.Value? ==>
      && Start(w, t, pos, n') && UpTo(w.Text(), pos) <= n' && Keeps(s, t, n, Slots(w.c)) && Agree(w.c, env, t.act.regs)
      && Holds(t, cond, out.v) && t.trace == out.trace
  {
    hide Start;
    hide Stopped;
    hide StmtDone;
    if out.ExprExit? {
      assert ExprDone(w, t0, t, 0, 0, n1, out);
      ExprStops(w, s, t0, t, pos0, n, n1, env, out);
    } else {
      NoSlots(w, t0, t, n1);
      SlotsTrans(s, t0, t, n, n1, Slots(w.c));
    }
  }

  function IfSkip(code: Code, cond: nat, id: nat): (r: Code)
    ensures |r| == |code| + 4 && r[0] == Jz(cond, 0, id)
  {
    [Jz(cond, 0, id), ScopeBegin] + (code + [ScopeEnd, Label(id)])
  }

  lemma IfParts(w: Site, pos: nat, st: Stmt, n: nat)
    requires st.If? && Stands(w, pos, EmitStmt(st, w.c, n).code) && EmitStmt(st, w.c, n).n <= w.top
    requires GoodStmt(w.p, st, w.c.names.Keys, ShieldOf(w.c.hs))
    ensures var a := EmitExpr(st.c, w.c, n + 1);
      var b := EmitStmt(st.t, w.c, a.n);
      && Stands(w, pos, Condition(a, n + 1)) && Stands(w, pos + 4 + |a.code|, IfSkip(b.code, n + 1, b.n + 1))
      && |EmitStmt(st, w.c, n).code| == 8 + |a.code| + |b.code| && n + 1 < a.n <= b.n < w.top
    ensures GoodExpr(w.p, st.c, w.c.names.Keys) && GoodStmt(w.p, st.t, w.c.names.Keys, ShieldOf(w.c.hs))
  {
    UnfoldBranch(st, w.c, n);
    hide EmitStmt;
    hide EmitExpr;
    hide GoodExpr;
    hide Stands;
    var a := EmitExpr(st.c, w.c, n + 1);
    var b := EmitStmt(st.t, w.c, a.n);
    ExprGrows(st.c, w.c, n + 1);
    StmtGrows(st.t, w.c, a.n);
    Split(w, pos, Condition(a, n + 1), IfSkip(b.code, n + 1, b.n + 1));
  }

  lemma IfShape(w: Site, pos: nat, code: Code, cond: nat, id: nat)
    requires Stands(w, pos, IfSkip(code, cond, id))
    ensures Stands(w, pos, [Jz(cond, 0, id)]) && Stands(w, pos + 1, [ScopeBegin]) && Stands(w, pos + 2, code)
    ensures Stands(w, pos + 2 + |code|, [ScopeEnd, Label(id)])
  {
    assert IfSkip(code, cond, id) == [Jz(cond, 0, id)] + ([ScopeBegin] + (code + [ScopeEnd, Label(id)]));
    hide IfSkip;
    hide Stands;
    Split(w, pos, [Jz(cond, 0, id)], [ScopeBegin] + (code + [ScopeEnd, Label(id)]));
    Split(w, pos + 1, [ScopeBegin], code + [ScopeEnd, Label(id)]);
    Split(w, pos + 2, code, [ScopeEnd, Label(id)]);
  }

  lemma IfSkipLands(code: Code, f: nat, cond: nat, id: nat) returns (first: nat)
    requires Lands(code, f, id)
    ensures Lands(IfSkip(code, cond, id), first, id) && 0 < first < |code| + 4
  {
    assert [ScopeEnd, Label(id)] == [ScopeEnd] + ([Label(id)] + []);
    var g := LandsClosed(code, f, [ScopeEnd], id, []);
    LandsBefore([Jz(cond, 0, id), ScopeBegin], code + [ScopeEnd, Label(id)], g, id);
    first := 2 + g;
  }

  lemma IfSkipFits(code: Code, k: nat, m: nat, hi: nat, cond: nat, top: nat)
    requires Fits(code, k, hi, top) && cond <= top && k <= m <= hi <= m + 1
    ensures Fits(IfSkip(code, cond, m + 1), k, m + 1, top)
  {
    assert Flat([Jz(cond, 0, m + 1), ScopeBegin], top);
    FlatFits([Jz(cond, 0, m + 1), ScopeBegin], k, top);
    EndFits(m, top);
    hide Fits;
    Cat(code, [ScopeEnd, Label(m + 1)], k, hi, m, m + 1, top);
    Cat([Jz(cond, 0, m + 1), ScopeBegin], code + [ScopeEnd, Label(m + 1)], k, k, k, m + 1, top);
  }

  lemma SimIf(w: Site, s: State, pos: nat, st: Stmt, n: nat, env: Env, fuel: nat) returns (t: State)
    requires st.If?
    requires StmtAt(w, s, pos, st, n, env)
    requires CallsBelow(w.p, w.m, fuel)
    ensures Reaches(w.m, s, t)
    ensures SlowStmt(w.m, s, RunStmt(DoesAll(w.p), Does(st), env, ShieldOf(w.c.hs), s.trace, fuel), fuel)
    ensures StmtDone(w, s, t, pos + |EmitStmt(st, w.c, n).code|, n,
                     RunStmt(DoesAll(w.p), Does(st), env, ShieldOf(w.c.hs), s.trace, fuel))
    decreases fuel, st, 2
  {
    hide *;
    StmtAtMeans(w, s, pos, st, n, env);
    IfParts(w, pos, st, n);
    DoesBranchRun(DoesAll(w.p), st, env, ShieldOf(w.c.hs), s.trace, fuel);
    var a := EmitExpr(st.c, w.c, n + 1);
    var b := EmitStmt(st.t, w.c, a.n);
    var out := RunExpr(DoesAll(w.p), st.c, env, ShieldOf(w.c.hs), s.trace, fuel);
    t := SimCondition(w, s, pos, st.c, n, n + 1, env, fuel);
    KeepsSelf(s, n);
    NoSlots(w, s, s, n);
    ConditionStops(w, s, s, t, pos, pos + 4 + |a.code|, n, n, a.n, n + 1, env, out);
    if out.ExprExit? {
      StmtSlow(w.m, s, out, env, fuel);
    } else {
      var t1 := IfRest(w, s, t, pos + 4 + |a.code|, st, a.n, n, env, fuel, out.v);
      StmtSlowAfter(w.m, s, t, RunStmt(DoesAll(w.p), Does(st), env, ShieldOf(w.c.hs), s.trace, fuel), fuel);
      ReachTrans(w.m, s, t, t1);
      t := t1;
    }
  }

  lemma IfRest(w: Site, s0: State, s: State, pos: nat, st: Stmt, k: nat, n: nat, env: Env, fuel: nat, v: u64)
    returns (t: State)
    requires st.If? && Start(w, s, pos, k) && UpTo(w.Text(), pos) <= k && n + 1 < k
    requires Keeps(s0, s, n, Slots(w.c)) && Agree(w.c, env, s.act.regs) && Holds(s, n + 1, v)
    requires var b := EmitStmt(st.t, w.c, k);
      Stands(w, pos, IfSkip(b.code, n + 1, b.n + 1)) && k <= b.n < w.top
    requires GoodStmt(w.p, st.t, w.c.names.Keys, ShieldOf(w.c.hs)) && CallsBelow(w.p, w.m, fuel)
    ensures Reaches(w.m, s, t)
    ensures SlowStmt(w.m, s, if v != 0 then RunStmt(DoesAll(w.p), Does(st.t), env, ShieldOf(w.c.hs), s.trace, fuel)
                     else Normal(env, s.trace),
                     fuel)
    ensures StmtDone(w, s0, t, pos + 4 + |EmitStmt(st.t, w.c, k).code|, n,
                     if v != 0 then RunStmt(DoesAll(w.p), Does(st.t), env, ShieldOf(w.c.hs), s.trace, fuel)
                       else Normal(env, s.trace))
    decreases fuel, st, 1
  {
    hide *;
    var b := EmitStmt(st.t, w.c, k);
    IfShape(w, pos, b.code, n + 1, b.n + 1);
    if v != 0 {
      var out := RunStmt(DoesAll(w.p), Does(st.t), env, ShieldOf(w.c.hs), s.trace, fuel);
      t := SimBody(w, s0, s, pos, n + 1, b.n + 1, st.t, k, n, env, fuel, v);
      BodyUsed(w, s0, t, pos + 2, b, st.t, n, out);
      if out.Normal? {
        EndFits(b.n, w.top);
        var t1 := StartThrough(w, t, pos + 2 + |b.code|, b.n, [ScopeEnd, Label(b.n + 1)], b.n + 1, b.n + 1);
        ReachTrans(w.m, s, t, t1);
        NormalDone(w, s0, t, t1, pos + 4 + |b.code|, b.n + 1, n, out.env);
        t := t1;
      }
    } else {
      StartSize(w, s, pos, k);
      StartFits(w, s, pos, k);
      SlotsBound(w, s, pos, k);
      TestTaken(s, n + 1, v, b.n + 1);
      StmtFits(st.t, w.c, k, w.top);
      LastLabelBound(st.t, b.n);
      var f := StmtLands(st.t, w.c, k, w.top);
      var first := IfSkipLands(b.code, f, n + 1, b.n + 1);
      IfSkipFits(b.code, k, b.n, LastLabel(st.t, b.n), n + 1, w.top);
      t := JumpAhead(w, s, pos, k, IfSkip(b.code, n + 1, b.n + 1), first, b.n + 1, b.n + 1);
      TestSlots(w.c, env, s0, s, t, n, 0, Slots(w.c));
      StmtInTime(w.m, s, Normal(env, s.trace), fuel);
      EndsHere(w, s0, t, pos + 4 + |b.code|, b.n + 1, n, env);
    }
  }

  lemma EndsHere(w: Site, s: State, t: State, pos: nat, n1: nat, n: nat, env: Env)
    requires Start(w, t, pos, n1) && Keeps(s, t, n, Slots(w.c)) && Agree(w.c, env, t.act.regs)
    ensures StmtDone(w, s, t, pos, n, Normal(env, t.trace))
  {
    hide Scene;
    hide Scoped;
    hide GoodProgram;
  }

  // ---- if, else ----

  // From the test to the label of the second branch
  function FirstSkip(code: Code, cond: nat, labelElse: nat, labelEnd: nat): (r: Code)
    ensures |r| == |code| + 6 && r[0] == Jz(cond, 0, labelElse)
  {
    [Jz(cond, 0, labelElse), ScopeBegin] + (code + [ScopeEnd, Jmp(labelEnd), Label(labelElse), ScopeBegin])
  }

  // From the end of the first branch to the end
  function SecondSkip(code: Code, labelElse: nat, labelEnd: nat): (r: Code)
    ensures |r| == |code| + 5 && r[0] == Jmp(labelEnd)
  {
    [Jmp(labelEnd), Label(labelElse), ScopeBegin] + (code + [ScopeEnd, Label(labelEnd)])
  }

  lemma IfElseParts(w: Site, pos: nat, st: Stmt, n: nat)
    requires st.IfElse? && Stands(w, pos, EmitStmt(st, w.c, n).code) && EmitStmt(st, w.c, n).n <= w.top
    requires GoodStmt(w.p, st, w.c.names.Keys, ShieldOf(w.c.hs))
    ensures var a := EmitExpr(st.c, w.c, n + 1);
      var b := EmitStmt(st.t, w.c, a.n);
      var d := EmitStmt(st.f, w.c, b.n + 1);
      && Stands(w, pos, Condition(a, n + 1))
      && Stands(w, pos + 4 + |a.code|, FirstSkip(b.code, n + 1, b.n + 1, d.n + 1)
                + (d.code + [ScopeEnd, Label(d.n + 1)]))
      && |EmitStmt(st, w.c, n).code| == 12 + |a.code| + |b.code| + |d.code|
      && n + 1 < a.n <= b.n < d.n + 1 <= w.top && b.n + 1 <= d.n
    ensures GoodExpr(w.p, st.c, w.c.names.Keys) && GoodStmt(w.p, st.t, w.c.names.Keys, ShieldOf(w.c.hs))
    ensures GoodStmt(w.p, st.f, w.c.names.Keys, ShieldOf(w.c.hs))
  {
    UnfoldBranch(st, w.c, n);
    hide EmitStmt;
    hide EmitExpr;
    hide GoodExpr;
    hide Stands;
    hide EndsWithHandler;
    var a := EmitExpr(st.c, w.c, n + 1);
    var b := EmitStmt(st.t, w.c, a.n);
    var d := EmitStmt(st.f, w.c, b.n + 1);
    ExprGrows(st.c, w.c, n + 1);
    StmtGrows(st.t, w.c, a.n);
    StmtGrows(st.f, w.c, b.n + 1);
    IfElseCode(a, b, d, n);
    hide MakeIfElse;
    Split(w, pos, Condition(a, n + 1), FirstSkip(b.code, n + 1, b.n + 1, d.n + 1)
          + (d.code + [ScopeEnd, Label(d.n + 1)]));
  }

  lemma IfElseCode(a: Emitted, b: EmittedStmt, d: EmittedStmt, n: nat)
    ensures MakeIfElse(a, b, d, n).code
         == Condition(a, n + 1) + (FirstSkip(b.code, n + 1, b.n + 1, d.n + 1) + (d.code + [ScopeEnd, Label(d.n + 1)]))
    ensures MakeIfElse(a, b, d, n).n == d.n + 1 && |Condition(a, n + 1)| == |a.code| + 4
  {
    var z := d.code + [ScopeEnd, Label(d.n + 1)];
    var m := [ScopeEnd, Jmp(d.n + 1), Label(b.n + 1), ScopeBegin];
    assert [Jz(n + 1, 0, b.n + 1), ScopeBegin] + (b.code + (m + z)) == FirstSkip(b.code, n + 1, b.n + 1, d.n + 1) + z;
  }

  lemma FirstShape(w: Site, pos: nat, b: EmittedStmt, d: EmittedStmt, cond: nat)
    requires Stands(w, pos, FirstSkip(b.code, cond, b.n + 1, d.n + 1) + (d.code + [ScopeEnd, Label(d.n + 1)]))
    ensures Stands(w, pos, [Jz(cond, 0, b.n + 1)]) && Stands(w, pos + 1, [ScopeBegin]) && Stands(w, pos + 2, b.code)
    ensures Stands(w, pos + 2 + |b.code|, [ScopeEnd])
    ensures Stands(w, pos + 3 + |b.code|, SecondSkip(d.code, b.n + 1, d.n + 1))
  {
    var z := d.code + [ScopeEnd, Label(d.n + 1)];
    var rest := [ScopeEnd] + SecondSkip(d.code, b.n + 1, d.n + 1);
    assert FirstSkip(b.code, cond, b.n + 1, d.n + 1) + z == [Jz(cond, 0, b.n + 1)] + ([ScopeBegin] + (b.code + rest));
    hide Stands;
    hide FirstSkip;
    hide SecondSkip;
    Split(w, pos, [Jz(cond, 0, b.n + 1)], [ScopeBegin] + (b.code + rest));
    Split(w, pos + 1, [ScopeBegin], b.code + rest);
    Split(w, pos + 2, b.code, rest);
    Split(w, pos + 2 + |b.code|, [ScopeEnd], SecondSkip(d.code, b.n + 1, d.n + 1));
  }

  lemma SecondShape(w: Site, pos: nat, b: EmittedStmt, d: EmittedStmt, cond: nat)
    requires Stands(w, pos, FirstSkip(b.code, cond, b.n + 1, d.n + 1) + (d.code + [ScopeEnd, Label(d.n + 1)]))
    ensures Stands(w, pos, FirstSkip(b.code, cond, b.n + 1, d.n + 1)) && Stands(w, pos + 6 + |b.code|, d.code)
    ensures Stands(w, pos + 6 + |b.code| + |d.code|, [ScopeEnd, Label(d.n + 1)])
  {
    hide Stands;
    hide FirstSkip;
    Split(w, pos, FirstSkip(b.code, cond, b.n + 1, d.n + 1), d.code + [ScopeEnd, Label(d.n + 1)]);
    Split(w, pos + 6 + |b.code|, d.code, [ScopeEnd, Label(d.n + 1)]);
  }

  lemma FirstSkipLands(code: Code, k: nat, m: nat, cond: nat, labelEnd: nat, top: nat) returns (first: nat)
    requires Fits(code, k, m, top)
    ensures Lands(FirstSkip(code, cond, m + 1, labelEnd), first, m + 1) && 0 < first < |code| + 6
  {
    first := |code| + 4;
    hide OrderedLabels;
  }

  lemma FirstSkipFits(code: Code, k: nat, m: nat, cond: nat, labelEnd: nat, top: nat)
    requires Fits(code, k, m, top) && k <= m && cond <= top
    ensures Fits(FirstSkip(code, cond, m + 1, labelEnd), k, m + 1, top)
  {
    var tail := [ScopeEnd, Jmp(labelEnd), Label(m + 1), ScopeBegin];
    assert Fits(tail, m, m + 1, top);
    assert Flat([Jz(cond, 0, m + 1), ScopeBegin], top);
    FlatFits([Jz(cond, 0, m + 1), ScopeBegin], k, top);
    hide Fits;
    Cat(code, tail, k, m, m, m + 1, top);
    Cat([Jz(cond, 0, m + 1), ScopeBegin], code + tail, k, k, k, m + 1, top);
  }

  lemma SecondSkipLands(code: Code, f: nat, labelElse: nat, id: nat) returns (first: nat)
    requires Lands(code, f, id) && labelElse < id
    ensures Lands(SecondSkip(code, labelElse, id), first, id) && 0 < first < |code| + 5
  {
    assert [ScopeEnd, Label(id)] == [ScopeEnd] + ([Label(id)] + []);
    var g := LandsClosed(code, f, [ScopeEnd], id, []);
    LandsBefore([Jmp(id), Label(labelElse), ScopeBegin], code + [ScopeEnd, Label(id)], g, id);
    first := 3 + g;
  }

  lemma SecondSkipFits(code: Code, lo: nat, labelElse: nat, m: nat, hi: nat, top: nat)
    requires Fits(code, labelElse, hi, top) && lo < labelElse <= m <= hi <= m + 1
    ensures Fits(SecondSkip(code, labelElse, m + 1), lo, m + 1, top)
  {
    EndFits(m, top);
    assert Fits([Jmp(m + 1), Label(labelElse), ScopeBegin], lo, labelElse, top);
    hide Fits;
    Cat(code, [ScopeEnd, Label(m + 1)], labelElse, hi, m, m + 1, top);
    Cat([Jmp(m + 1), Label(labelElse), ScopeBegin], code + [ScopeEnd, Label(m + 1)],
        lo, labelElse, labelElse, m + 1, top);
  }

  lemma SimIfElse(w: Site, s: State, pos: nat, st: Stmt, n: nat, env: Env, fuel: nat) returns (t: State)
    requires st.IfElse?
    requires StmtAt(w, s, pos, st, n, env)
    requires CallsBelow(w.p, w.m, fuel)
    ensures Reaches(w.m, s, t)
    ensures SlowStmt(w.m, s, RunStmt(DoesAll(w.p), Does(st), env, ShieldOf(w.c.hs), s.trace, fuel), fuel)
    ensures StmtDone(w, s, t, pos + |EmitStmt(st, w.c, n).code|, n,
                     RunStmt(DoesAll(w.p), Does(st), env, ShieldOf(w.c.hs), s.trace, fuel))
    decreases fuel, st, 2
  {
    hide *;
    StmtAtMeans(w, s, pos, st, n, env);
    IfElseParts(w, pos, st, n);
    DoesBranchRun(DoesAll(w.p), st, env, ShieldOf(w.c.hs), s.trace, fuel);
    var a := EmitExpr(st.c, w.c, n + 1);
    var out := RunExpr(DoesAll(w.p), st.c, env, ShieldOf(w.c.hs), s.trace, fuel);
    t := SimCondition(w, s, pos, st.c, n, n + 1, env, fuel);
    KeepsSelf(s, n);
    NoSlots(w, s, s, n);
    ConditionStops(w, s, s, t, pos, pos + 4 + |a.code|, n, n, a.n, n + 1, env, out);
    if out.ExprExit? {
      StmtSlow(w.m, s, out, env, fuel);
    } else {
      var t1: State;
      if out.v != 0 {
        t1 := FirstBranch(w, s, t, pos + 4 + |a.code|, st, a.n, n, env, fuel, out.v);
      } else if EndsWithHandler(st.t) {
        t1 := ElseIsSkipped(w, s, t, pos + 4 + |a.code|, st, a.n, n, env);
        StmtInTime(w.m, t, Normal(env, out.trace), fuel);
      } else {
        t1 := SecondBranch(w, s, t, pos + 4 + |a.code|, st, a.n, n, env, fuel);
      }
      StmtSlowAfter(w.m, s, t, RunStmt(DoesAll(w.p), Does(st), env, ShieldOf(w.c.hs), s.trace, fuel), fuel);
      ReachTrans(w.m, s, t, t1);
      t := t1;
    }
  }

  lemma FirstBranch(w: Site, s0: State, s: State, pos: nat, st: Stmt, k: nat, n: nat, env: Env, fuel: nat, v: u64)
    returns (t: State)
    requires st.IfElse? && Start(w, s, pos, k) && UpTo(w.Text(), pos) <= k && n + 1 < k
    requires Keeps(s0, s, n, Slots(w.c)) && Agree(w.c, env, s.act.regs) && Holds(s, n + 1, v) && v != 0
    requires var b := EmitStmt(st.t, w.c, k);
      var d := EmitStmt(st.f, w.c, b.n + 1);
      && Stands(w, pos, FirstSkip(b.code, n + 1, b.n + 1, d.n + 1) + (d.code + [ScopeEnd, Label(d.n + 1)]))
      && k <= b.n && b.n + 1 <= d.n < w.top
    requires GoodStmt(w.p, st.t, w.c.names.Keys, ShieldOf(w.c.hs))
    requires CallsBelow(w.p, w.m, fuel)
    ensures Reaches(w.m, s, t)
    ensures SlowStmt(w.m, s, RunStmt(DoesAll(w.p), Does(st.t), env, ShieldOf(w.c.hs), s.trace, fuel), fuel)
    ensures var b := EmitStmt(st.t, w.c, k);
      StmtDone(w, s0, t, pos + 8 + |b.code| + |EmitStmt(st.f, w.c, b.n + 1).code|, n,
               RunStmt(DoesAll(w.p), Does(st.t), env, ShieldOf(w.c.hs), s.trace, fuel))
    decreases fuel, st, 1
  {
    hide *;
    var b := EmitStmt(st.t, w.c, k);
    var d := EmitStmt(st.f, w.c, b.n + 1);
    var out := RunStmt(DoesAll(w.p), Does(st.t), env, ShieldOf(w.c.hs), s.trace, fuel);
    FirstShape(w, pos, b, d, n + 1);
    t := SimBody(w, s0, s, pos, n + 1, b.n + 1, st.t, k, n, env, fuel, v);
    BodyUsed(w, s0, t, pos + 2, b, st.t, n, out);
    LastLabelBound(st.t, b.n);
    if out.Normal? {
      var t1 := FirstCloses(w, s0, t, pos + 2 + |b.code|, b.n, st.f, n, out.env);
      ReachTrans(w.m, s, t, t1);
      t := t1;
    }
  }

  // Out of the first branch, over the second one
  lemma FirstCloses(w: Site, s0: State, s: State, pos: nat, m: nat, st: Stmt, n: nat, env: Env) returns (t: State)
    requires Start(w, s, pos, m) && Keeps(s0, s, n, Slots(w.c)) && Agree(w.c, env, s.act.regs)
    requires var d := EmitStmt(st, w.c, m + 1);
      && Stands(w, pos, [ScopeEnd]) && Stands(w, pos + 1, SecondSkip(d.code, m + 1, d.n + 1)) && m + 1 <= d.n < w.top
    ensures Reaches(w.m, s, t)
    ensures StmtDone(w, s0, t, pos + 6 + |EmitStmt(st, w.c, m + 1).code|, n, Normal(env, s.trace))
  {
    hide *;
    var d := EmitStmt(st, w.c, m + 1);
    ScopeIdle(w, 0);
    var t1 := StartIdle(w, s, pos, m, [ScopeEnd], m);
    StartSize(w, t1, pos + 1, m);
    SlotsBound(w, s, pos, m);
    TestSlots(w.c, env, s0, s, t1, n, 0, Slots(w.c));
    StartFits(w, t1, pos + 1, m);
    FitsCtxMore(w.c, m, m + 1);
    StmtFits(st, w.c, m + 1, w.top);
    LastLabelBound(st, d.n);
    var f := StmtLands(st, w.c, m + 1, w.top);
    var first := SecondSkipLands(d.code, f, m + 1, d.n + 1);
    SecondSkipFits(d.code, m, m + 1, d.n, LastLabel(st, d.n), w.top);
    AnyTest(t1, d.n + 1);
    t := JumpAhead(w, t1, pos + 1, m, SecondSkip(d.code, m + 1, d.n + 1), first, d.n + 1, d.n + 1);
    ReachTrans(w.m, s, t1, t);
    TestSlots(w.c, env, s0, t1, t, n, 0, Slots(w.c));
    EndsHere(w, s0, t, pos + 6 + |d.code|, d.n + 1, n, env);
  }

  lemma FitsCtxMore(c: Ctx, n: nat, n': nat)
    requires FitsCtx(c, n) && n <= n'
    ensures FitsCtx(c, n')
  {
  }

  lemma AnyTest(s: State, id: nat)
    requires |s.act.regs| > 0
    ensures IsJump(Jmp(id)) && MaxLvid(Jmp(id)) == 0 && Taken(Jmp(id), s.act.regs)
    ensures AfterJump(Jmp(id), s.act.regs) == s.act.regs
  {
  }

  lemma SecondBranch(w: Site, s0: State, s: State, pos: nat, st: Stmt, k: nat, n: nat, env: Env, fuel: nat)
    returns (t: State)
    requires st.IfElse? && Start(w, s, pos, k) && UpTo(w.Text(), pos) <= k && n + 1 < k
    requires Keeps(s0, s, n, Slots(w.c)) && Agree(w.c, env, s.act.regs) && Holds(s, n + 1, 0)
    requires var b := EmitStmt(st.t, w.c, k);
      var d := EmitStmt(st.f, w.c, b.n + 1);
      && Stands(w, pos, FirstSkip(b.code, n + 1, b.n + 1, d.n + 1) + (d.code + [ScopeEnd, Label(d.n + 1)]))
      && k <= b.n && b.n + 1 <= d.n < w.top
    requires GoodStmt(w.p, st.f, w.c.names.Keys, ShieldOf(w.c.hs)) && !EndsWithHandler(st.t)
    requires CallsBelow(w.p, w.m, fuel)
    ensures Reaches(w.m, s, t)
    ensures SlowStmt(w.m, s, RunStmt(DoesAll(w.p), Does(st.f), env, ShieldOf(w.c.hs), s.trace, fuel), fuel)
    ensures var b := EmitStmt(st.t, w.c, k);
      StmtDone(w, s0, t, pos + 8 + |b.code| + |EmitStmt(st.f, w.c, b.n + 1).code|, n,
               RunStmt(DoesAll(w.p), Does(st.f), env, ShieldOf(w.c.hs), s.trace, fuel))
    decreases fuel, st, 1
  {
    hide *;
    var b := EmitStmt(st.t, w.c, k);
    var d := EmitStmt(st.f, w.c, b.n + 1);
    SecondShape(w, pos, b, d, n + 1);
    var t1 := FirstSkipped(w, s0, s, pos, st.t, k, n, env, d.n + 1);
    var q := pos + 6 + |b.code|;
    var out := RunStmt(DoesAll(w.p), Does(st.f), env, ShieldOf(w.c.hs), s.trace, fuel);
    StmtIsAt(w, t1, q, st.f, b.n + 1, env);
    t := SimStmt(w, t1, q, st.f, b.n + 1, env, fuel);
    ReachTrans(w.m, s, t1, t);
    StmtSlowAfter(w.m, s, t1, out, fuel);
    AfterStmt(w, s0, t1, t, q, st.f, n, b.n + 1, env, out);
    if out.Normal? {
      EndFits(d.n, w.top);
      var t2 := StartThrough(w, t, q + |d.code|, d.n, [ScopeEnd, Label(d.n + 1)], d.n + 1, d.n + 1);
      ReachTrans(w.m, s, t, t2);
      NormalDone(w, s0, t, t2, q + |d.code| + 2, d.n + 1, n, out.env);
      t := t2;
    }
  }

  // Over the first branch
  lemma FirstSkipped(w: Site, s0: State, s: State, pos: nat, st: Stmt, k: nat, n: nat, env: Env, labelEnd: nat)
    returns (t: State)
    requires Start(w, s, pos, k) && UpTo(w.Text(), pos) <= k && n + 1 < k && !EndsWithHandler(st)
    requires Keeps(s0, s, n, Slots(w.c)) && Agree(w.c, env, s.act.regs) && Holds(s, n + 1, 0)
    requires var b := EmitStmt(st, w.c, k);
      Stands(w, pos, FirstSkip(b.code, n + 1, b.n + 1, labelEnd)) && k <= b.n < w.top
    ensures Reaches(w.m, s, t)
    ensures var b := EmitStmt(st, w.c, k);
      Start(w, t, pos + 6 + |b.code|, b.n + 1)
    ensures Keeps(s0, t, n, Slots(w.c)) && Agree(w.c, env, t.act.regs) && t.trace == s.trace
  {
    hide *;
    var b := EmitStmt(st, w.c, k);
    StartSize(w, s, pos, k);
    StartFits(w, s, pos, k);
    SlotsBound(w, s, pos, k);
    TestTaken(s, n + 1, 0, b.n + 1);
    StmtFits(st, w.c, k, w.top);
    LastLabelBound(st, b.n);
    var first := FirstSkipLands(b.code, k, b.n, n + 1, labelEnd, w.top);
    FirstSkipFits(b.code, k, b.n, n + 1, labelEnd, w.top);
    t := JumpAhead(w, s, pos, k, FirstSkip(b.code, n + 1, b.n + 1, labelEnd), first, b.n + 1, b.n + 1);
    TestSlots(w.c, env, s0, s, t, n, 0, Slots(w.c));
  }

  // ---- loops ----

  // A jump back to the label just before 'pos'
  lemma JumpBack(w: Site, s1: State, s: State, pos: nat, n: nat, frag: Code, hi: nat, jump: Instr, id: nat)
    returns (t: State)
    requires Start(w, s1, pos, n) && pos > 0 && Stands(w, pos - 1, [Label(id)]) && Stands(w, pos, frag)
    requires Fits(frag, id, hi, w.top) && Stands(w, pos + |frag|, [jump])
    requires Ready(w.m, s, w.f, pos + |frag|, false) && s.callers == s1.callers && |s.act.regs| == |s1.act.regs|
    requires IsJump(jump) && jump.target == id && MaxLvid(jump) <= w.top && Taken(jump, s.act.regs)
    ensures Reaches(w.m, s, t) && Start(w, t, pos, n) && Moved(s, t, AfterJump(jump, s.act.regs))
  {
    StartSize(w, s1, pos, n);
    hide Start;
    t := BackRun(w, s, pos, frag, hi, jump, id);
    StartAgain(w, s1, t, pos, n);
  }

  lemma BackRun(w: Site, s: State, pos: nat, frag: Code, hi: nat, jump: Instr, id: nat) returns (t: State)
    requires Ordered(w.m) && pos > 0 && Stands(w, pos - 1, [Label(id)]) && Stands(w, pos, frag)
    requires Fits(frag, id, hi, w.top) && Stands(w, pos + |frag|, [jump]) && w.top < |s.act.regs|
    requires Ready(w.m, s, w.f, pos + |frag|, false)
    requires IsJump(jump) && jump.target == id && MaxLvid(jump) <= w.top && Taken(jump, s.act.regs)
    ensures Reaches(w.m, s, t) && Ready(w.m, t, w.f, pos, false) && Moved(s, t, AfterJump(jump, s.act.regs))
  {
    Reads(w, pos - 1, [Label(id)], 0);
    Reads(w, pos + |frag|, [jump], 0);
    JumpStep(w.m, s, w.f, pos + |frag|);
    LabelsAbove(w, pos, frag, id, hi);
    hide Fits;
    hide UpTo;
    t := Step(w.m, s);
    assert w.m.funcs[w.f][pos - 1] == Label(id);
    Backward(w.m, s, w.f, AfterJump(jump, s.act.regs), id, pos - 1);
  }

  lemma StartAgain(w: Site, s: State, t: State, pos: nat, n: nat)
    requires Start(w, s, pos, n) && Ready(w.m, t, w.f, pos, false)
    requires t.callers == s.callers && |t.act.regs| == |s.act.regs|
    ensures Start(w, t, pos, n)
  {
    hide Scene;
    hide Scoped;
    hide GoodProgram;
    hide UpTo;
  }

  lemma LabelsAbove(w: Site, pos: nat, frag: Code, id: nat, hi: nat)
    requires Stands(w, pos, frag) && Fits(frag, id, hi, w.top)
    ensures forall i :: pos <= i < pos + |frag| && w.m.funcs[w.f][i].Label? ==> w.m.funcs[w.f][i].id > id
  {
    forall i | pos <= i < pos + |frag| && w.m.funcs[w.f][i].Label?
      ensures w.m.funcs[w.f][i].id > id
    {
      Reads(w, pos, frag, i - pos);
    }
  }

  function WhileFrag(a: Emitted, code: Code, n: nat, id: nat): (r: Code)
    ensures |r| == |a.code| + |code| + 7
  {
    Condition(a, n + 2) + ([Jz(n + 2, 0, id), ScopeBegin] + (code + [ScopeEnd]))
  }

  function WhileSkip(code: Code, cond: nat, start: nat, id: nat): (r: Code)
    ensures |r| == |code| + 6 && r[0] == Jz(cond, 0, id)
  {
    [Jz(cond, 0, id), ScopeBegin] + (code + [ScopeEnd, Jmp(start), Label(id), ScopeEnd])
  }

  lemma WhileCode(a: Emitted, b: EmittedStmt, n: nat)
    ensures MakeWhile(a, b, n).code == [ScopeBegin, Label(n + 1)]
        + (Condition(a, n + 2) + WhileSkip(b.code, n + 2, n + 1, b.n + 1))
    ensures MakeWhile(a, b, n).code == [ScopeBegin] + ([Label(n + 1)] + (WhileFrag(a, b.code, n, b.n + 1)
                                       + ([Jmp(n + 1)] + [Label(b.n + 1), ScopeEnd])))
    ensures |Condition(a, n + 2)| == |a.code| + 4 && MakeWhile(a, b, n).n == b.n + 1
  {
    assert WhileFrag(a, b.code, n, b.n + 1) + ([Jmp(n + 1)] + [Label(b.n + 1), ScopeEnd])
        == Condition(a, n + 2) + WhileSkip(b.code, n + 2, n + 1, b.n + 1);
  }

  lemma WhileShape(w: Site, pos: nat, a: Emitted, b: EmittedStmt, n: nat)
    requires Stands(w, pos, MakeWhile(a, b, n).code)
    ensures Stands(w, pos, [ScopeBegin, Label(n + 1)]) && Stands(w, pos + 2, Condition(a, n + 2))
    ensures Stands(w, pos + 6 + |a.code|, WhileSkip(b.code, n + 2, n + 1, b.n + 1))
    ensures Stands(w, pos + 1, [Label(n + 1)]) && Stands(w, pos + 2, WhileFrag(a, b.code, n, b.n + 1))
    ensures Stands(w, pos + 9 + |a.code| + |b.code|, [Jmp(n + 1)])
    ensures |MakeWhile(a, b, n).code| == 12 + |a.code| + |b.code|
  {
    hide *;
    WhileCode(a, b, n);
    Split(w, pos, [ScopeBegin, Label(n + 1)], Condition(a, n + 2) + WhileSkip(b.code, n + 2, n + 1, b.n + 1));
    Split(w, pos + 2, Condition(a, n + 2), WhileSkip(b.code, n + 2, n + 1, b.n + 1));
    var rest := [Jmp(n + 1)] + [Label(b.n + 1), ScopeEnd];
    var frag := WhileFrag(a, b.code, n, b.n + 1);
    Split(w, pos, [ScopeBegin], [Label(n + 1)] + (frag + rest));
    Split(w, pos + 1, [Label(n + 1)], frag + rest);
    Split(w, pos + 2, frag, rest);
    Split(w, pos + 9 + |a.code| + |b.code|, [Jmp(n + 1)], [Label(b.n + 1), ScopeEnd]);
  }

  lemma WhileBody(w: Site, pos: nat, code: Code, cond: nat, start: nat, id: nat)
    requires Stands(w, pos, WhileSkip(code, cond, start, id))
    ensures Stands(w, pos, [Jz(cond, 0, id)]) && Stands(w, pos + 1, [ScopeBegin]) && Stands(w, pos + 2, code)
    ensures Stands(w, pos + 2 + |code|, [ScopeEnd])
  {
    var rest := [ScopeEnd] + [Jmp(start), Label(id), ScopeEnd];
    assert WhileSkip(code, cond, start, id) == [Jz(cond, 0, id)] + ([ScopeBegin] + (code + rest));
    hide WhileSkip;
    hide Stands;
    Split(w, pos, [Jz(cond, 0, id)], [ScopeBegin] + (code + rest));
    Split(w, pos + 1, [ScopeBegin], code + rest);
    Split(w, pos + 2, code, rest);
    Split(w, pos + 2 + |code|, [ScopeEnd], [Jmp(start), Label(id), ScopeEnd]);
  }

  lemma WhileSkipLands(code: Code, k: nat, m: nat, cond: nat, start: nat, top: nat) returns (first: nat)
    requires Fits(code, k, m, top)
    ensures Lands(WhileSkip(code, cond, start, m + 1), first, m + 1) && 0 < first < |code| + 6
  {
    first := |code| + 4;
    hide OrderedLabels;
  }

  lemma WhileSkipFits(code: Code, k: nat, m: nat, cond: nat, start: nat, top: nat)
    requires Fits(code, k, m, top) && k <= m && cond <= top
    ensures Fits(WhileSkip(code, cond, start, m + 1), k, m + 1, top)
  {
    ClosingFits(m, start, m, top);
    var tail := [ScopeEnd, Jmp(start), Label(m + 1), ScopeEnd];
    assert Flat([Jz(cond, 0, m + 1), ScopeBegin], top);
    FlatFits([Jz(cond, 0, m + 1), ScopeBegin], k, top);
    hide Fits;
    Cat(code, tail, k, m, m, m + 1, top);
    Cat([Jz(cond, 0, m + 1), ScopeBegin], code + tail, k, k, k, m + 1, top);
  }

  lemma WhileFragFits(a: Emitted, code: Code, n: nat, id: nat, hi: nat, top: nat)
    requires Fits(a.code, n + 2, a.n, top) && Fits(code, a.n, hi, top) && n + 2 <= a.n <= hi && n + 2 <= top
    requires a.lvid <= top
    ensures Fits(WhileFrag(a, code, n, id), n + 1, hi, top)
  {
    assert Flat([ScopeEnd], top);
    hide Fits;
    FlatFits([ScopeEnd], hi, top);
    Cat(code, [ScopeEnd], a.n, hi, hi, hi, top);
    ConditionFits(a, n + 2, n + 2, top);
    TestFits(Condition(a, n + 2), Jz(n + 2, 0, id), code + [ScopeEnd], n + 2, a.n, hi, top);
    Widen(WhileFrag(a, code, n, id), n + 2, hi, n + 1, hi, top);
  }

  lemma WhileParts(w: Site, pos: nat, st: Stmt, n: nat)
    requires st.While? && Stands(w, pos, EmitStmt(st, w.c, n).code) && EmitStmt(st, w.c, n).n <= w.top
    requires GoodStmt(w.p, st, w.c.names.Keys, ShieldOf(w.c.hs)) && FitsCtx(w.c, n)
    ensures var a := EmitExpr(st.c, w.c, n + 2);
      var b := EmitStmt(st.s, w.c, a.n);
      && Stands(w, pos, MakeWhile(a, b, n).code) && EmitStmt(st, w.c, n).code == MakeWhile(a, b, n).code
      && n + 2 < a.n <= b.n < w.top && Fits(a.code, n + 2, a.n, w.top) && a.lvid <= w.top
      && Fits(b.code, a.n, LastLabel(st.s, b.n), w.top) && b.n <= LastLabel(st.s, b.n)
    ensures GoodExpr(w.p, st.c, w.c.names.Keys) && GoodStmt(w.p, st.s, w.c.names.Keys, ShieldOf(w.c.hs))
  {
    UnfoldBranch(st, w.c, n);
    hide EmitStmt;
    hide EmitExpr;
    hide GoodExpr;
    hide Stands;
    hide Fits;
    hide EndsWithHandler;
    var a := EmitExpr(st.c, w.c, n + 2);
    ExprGrows(st.c, w.c, n + 2);
    StmtGrows(st.s, w.c, a.n);
    LastLabelBound(st.s, EmitStmt(st.s, w.c, a.n).n);
    ExprFits(st.c, w.c, n + 2, w.top);
    StmtFits(st.s, w.c, a.n, w.top);
  }

  lemma LoopOpens(n: nat, top: nat)
    ensures Fits([ScopeBegin, Label(n + 1)], n, n + 1, top) && IsIdle(ScopeBegin) && IsIdle(Label(n + 1))
  {
  }

  lemma SimWhile(w: Site, s: State, pos: nat, st: Stmt, n: nat, env: Env, fuel: nat) returns (t: State)
    requires st.While?
    requires StmtAt(w, s, pos, st, n, env)
    requires CallsBelow(w.p, w.m, fuel)
    ensures Reaches(w.m, s, t)
    ensures SlowStmt(w.m, s, RunStmt(DoesAll(w.p), Does(st), env, ShieldOf(w.c.hs), s.trace, fuel), fuel)
    ensures StmtDone(w, s, t, pos + |EmitStmt(st, w.c, n).code|, n,
                     RunStmt(DoesAll(w.p), Does(st), env, ShieldOf(w.c.hs), s.trace, fuel))
    decreases fuel, st, 2
  {
    hide *;
    StmtAtMeans(w, s, pos, st, n, env);
    StartFits(w, s, pos, n);
    WhileParts(w, pos, st, n);
    var a := EmitExpr(st.c, w.c, n + 2);
    WhileShape(w, pos, a, EmitStmt(st.s, w.c, a.n), n);
    LoopOpens(n, w.top);
    var t0 := StartThrough(w, s, pos, n, [ScopeBegin, Label(n + 1)], n + 1, n + 1);
    MovedKeeps(s, t0, n);
    AgreeSame(w.c, env, s, t0);
    NoSlots(w, s, t0, n);
    t := WhileLoop(w, s, t0, pos, st, n, env, fuel);
    ReachTrans(w.m, s, t0, t);
    StmtSlowAfter(w.m, s, t0, RunStmt(DoesAll(w.p), Does(st), env, ShieldOf(w.c.hs), s.trace, fuel), fuel);
  }

  // The loop is given no time at all
  lemma LoopTimesOut(w: Site, s0: State, s: State, pos0: nat, k: nat, n: nat, env: Env)
    requires Start(w, s, pos0, k)
    ensures forall pos :: StmtDone(w, s0, s, pos, n, StmtExit(Timeout, env, s.trace))
    ensures SlowStmt(w.m, s, StmtExit(Timeout, env, s.trace), 0)
    ensures Reaches(w.m, s, s)
  {
    hide Scene;
    hide Scoped;
    ReachSelf(w.m, s);
    GoesNow(w.m, s);
  }

  lemma StartDiffers(w: Site, s: State, t: State, pos: nat, n: nat, pos': nat, n': nat)
    requires Start(w, s, pos, n) && Start(w, t, pos', n') && pos != pos'
    ensures s != t
  {
    hide Scene;
    hide Scoped;
  }

  // The loop, from its test on
  lemma WhileLoop(w: Site, s0: State, s: State, pos: nat, st: Stmt, n: nat, env: Env, fuel: nat) returns (t: State)
    requires st.While? && Start(w, s, pos + 2, n + 1) && FitsCtx(w.c, n)
    requires Stands(w, pos, EmitStmt(st, w.c, n).code) && EmitStmt(st, w.c, n).n <= w.top
    requires GoodStmt(w.p, st, w.c.names.Keys, ShieldOf(w.c.hs))
    requires Keeps(s0, s, n, Slots(w.c)) && Agree(w.c, env, s.act.regs)
    requires CallsBelow(w.p, w.m, fuel)
    ensures Reaches(w.m, s, t)
    ensures SlowStmt(w.m, s, RunStmt(DoesAll(w.p), Does(st), env, ShieldOf(w.c.hs), s.trace, fuel), fuel)
    ensures StmtDone(w, s0, t, pos + |EmitStmt(st, w.c, n).code|, n,
                     RunStmt(DoesAll(w.p), Does(st), env, ShieldOf(w.c.hs), s.trace, fuel))
    decreases fuel, st, 1
  {
    hide *;
    WhileParts(w, pos, st, n);
    DoesLoopRun(DoesAll(w.p), st, env, ShieldOf(w.c.hs), s.trace, fuel);
    var a := EmitExpr(st.c, w.c, n + 2);
    var b := EmitStmt(st.s, w.c, a.n);
    WhileShape(w, pos, a, b, n);
    var q := pos + 6 + |a.code|;
    var out := RunExpr(DoesAll(w.p), st.c, env, ShieldOf(w.c.hs), s.trace, fuel);
    if fuel == 0 {
      LoopTimesOut(w, s0, s, pos + 2, n + 1, n, env);
      return s;
    }
    t := SimCondition(w, s, pos + 2, st.c, n + 1, n + 2, env, fuel);
    ConditionStops(w, s0, s, t, pos + 2, q, n, n + 1, a.n, n + 2, env, out);
    if out.ExprExit? {
      StmtSlow(w.m, s, out, env, fuel);
    } else {
      StartDiffers(w, s, t, pos + 2, n + 1, q, a.n);
      var t1: State;
      if out.v == 0 && EndsWithHandler(st.s) {
        t1 := LoopNeverLeaves(w, s0, s, t, pos, st, n, env);
        CallsFewer(w.p, w.m, fuel, fuel - 1);
        var t2 := WhileLoop(w, s0, t1, pos, st, n, env, fuel - 1);
        StmtSlowAfter(w.m, t, t1, RunStmt(DoesAll(w.p), Does(st), env, ShieldOf(w.c.hs), s.trace, fuel), fuel - 1);
        ReachTrans(w.m, t, t1, t2);
        t1 := t2;
      } else if out.v == 0 {
        LastIsCounter(st.s, b.n);
        t1 := WhileEnds(w, s0, t, q, b, a.n, n, env);
        StmtInTime(w.m, t, Normal(env, out.trace), fuel - 1);
      } else {
        t1 := WhileTurn(w, s0, s, t, pos, st, n, env, fuel, out);
      }
      StmtSlowAfter(w.m, s, t, RunStmt(DoesAll(w.p), Does(st), env, ShieldOf(w.c.hs), s.trace, fuel), fuel - 1);
      ReachTrans(w.m, s, t, t1);
      t := t1;
    }
  }

  lemma LastIsCounter(st: Stmt, n: nat)
    requires !EndsWithHandler(st)
    ensures LastLabel(st, n) == n
  {
  }

  lemma WhileEnds(w: Site, s0: State, s: State, pos: nat, b: EmittedStmt, k: nat, n: nat, env: Env) returns (t: State)
    requires Start(w, s, pos, k) && UpTo(w.Text(), pos) <= k && Keeps(s0, s, n, Slots(w.c))
    requires Agree(w.c, env, s.act.regs)
    requires Holds(s, n + 2, 0) && Stands(w, pos, WhileSkip(b.code, n + 2, n + 1, b.n + 1))
    requires Fits(b.code, k, b.n, w.top) && n + 2 < k <= b.n < w.top
    ensures Reaches(w.m, s, t) && StmtDone(w, s0, t, pos + 6 + |b.code|, n, Normal(env, s.trace))
  {
    hide *;
    StartSize(w, s, pos, k);
    SlotsBound(w, s, pos, k);
    TestTaken(s, n + 2, 0, b.n + 1);
    var first := WhileSkipLands(b.code, k, b.n, n + 2, n + 1, w.top);
    WhileSkipFits(b.code, k, b.n, n + 2, n + 1, w.top);
    t := JumpAhead(w, s, pos, k, WhileSkip(b.code, n + 2, n + 1, b.n + 1), first, b.n + 1, b.n + 1);
    TestSlots(w.c, env, s0, s, t, n, 0, Slots(w.c));
    EndsHere(w, s0, t, pos + 6 + |b.code|, b.n + 1, n, env);
  }

  // The body, then the loop again
  lemma WhileTurn(w: Site, s0: State, s: State, t0: State, pos: nat, st: Stmt, n: nat, env: Env, fuel: nat,
                  out: ExprOut)
    returns (t: State)
    requires st.While? && Start(w, s, pos + 2, n + 1) && FitsCtx(w.c, n)
    requires Stands(w, pos, EmitStmt(st, w.c, n).code) && EmitStmt(st, w.c, n).n <= w.top
    requires GoodStmt(w.p, st, w.c.names.Keys, ShieldOf(w.c.hs)) && Keeps(s0, s, n, Slots(w.c))
    requires var a := EmitExpr(st.c, w.c, n + 2);
      && Start(w, t0, pos + 6 + |a.code|, a.n) && UpTo(w.Text(), pos + 6 + |a.code|) <= a.n
    requires Keeps(s0, t0, n, Slots(w.c)) && Agree(w.c, env, t0.act.regs)
    requires out.Value? && out.v != 0 && Holds(t0, n + 2, out.v) && t0.trace == out.trace
    requires fuel > 0 && out == RunExpr(DoesAll(w.p), st.c, env, ShieldOf(w.c.hs), s.trace, fuel)
    requires CallsBelow(w.p, w.m, fuel)
    ensures Reaches(w.m, t0, t)
    ensures SlowStmt(w.m, t0, RunStmt(DoesAll(w.p), Does(st), env, ShieldOf(w.c.hs), s.trace, fuel), fuel - 1)
    ensures StmtDone(w, s0, t, pos + |EmitStmt(st, w.c, n).code|, n,
                     RunStmt(DoesAll(w.p), Does(st), env, ShieldOf(w.c.hs), s.trace, fuel))
    decreases fuel, st, 0
  {
    hide *;
    WhileParts(w, pos, st, n);
    DoesLoopRun(DoesAll(w.p), st, env, ShieldOf(w.c.hs), s.trace, fuel);
    var a := EmitExpr(st.c, w.c, n + 2);
    var b := EmitStmt(st.s, w.c, a.n);
    WhileShape(w, pos, a, b, n);
    var q := pos + 6 + |a.code|;
    WhileBody(w, q, b.code, n + 2, n + 1, b.n + 1);
    var body := RunStmt(DoesAll(w.p), Does(st.s), env, ShieldOf(w.c.hs), out.trace, fuel);
    t := SimBody(w, s0, t0, q, n + 2, b.n + 1, st.s, a.n, n, env, fuel, out.v);
    BodyUsed(w, s0, t, q + 2, b, st.s, n, body);
    SlowLess(w.m, t0, body, fuel);
    if body.Normal? {
      WhileFragFits(a, b.code, n, b.n + 1, LastLabel(st.s, b.n), w.top);
      var t1 := WhileBack(w, s0, s, t, pos, a, b, LastLabel(st.s, b.n), n, body.env);
      ReachTrans(w.m, t0, t, t1);
      CallsFewer(w.p, w.m, fuel, fuel - 1);
      t := WhileLoop(w, s0, t1, pos, st, n, body.env, fuel - 1);
      StmtSlowAfter(w.m, t0, t1, RunStmt(DoesAll(w.p), Does(st), env, ShieldOf(w.c.hs), s.trace, fuel), fuel - 1);
      ReachTrans(w.m, t0, t1, t);
    }
  }

  lemma WhileBack(w: Site, s0: State, s: State, t0: State, pos: nat, a: Emitted, b: EmittedStmt, hi: nat, n: nat,
                  env: Env)
    returns (t: State)
    requires Start(w, s, pos + 2, n + 1) && Stands(w, pos, MakeWhile(a, b, n).code)
    requires Fits(WhileFrag(a, b.code, n, b.n + 1), n + 1, hi, w.top)
    requires Start(w, t0, pos + 8 + |a.code| + |b.code|, b.n)
    requires Keeps(s0, s, n, Slots(w.c)) && Keeps(s0, t0, n, Slots(w.c)) && Agree(w.c, env, t0.act.regs)
    ensures Reaches(w.m, t0, t) && Start(w, t, pos + 2, n + 1)
    ensures Keeps(s0, t, n, Slots(w.c)) && Agree(w.c, env, t.act.regs) && t.trace == t0.trace
  {
    hide *;
    WhileShape(w, pos, a, b, n);
    WhileCode(a, b, n);
    WhileBody(w, pos + 6 + |a.code|, b.code, n + 2, n + 1, b.n + 1);
    ScopeIdle(w, 0);
    var q := pos + 8 + |a.code| + |b.code|;
    var t1 := StartIdle(w, t0, q, b.n, [ScopeEnd], b.n);
    StartSize(w, t1, q + 1, b.n);
    SlotsBound(w, t0, q, b.n);
    TestSlots(w.c, env, s0, t0, t1, n, 0, Slots(w.c));
    KeepsSize(s0, s, n, Slots(w.c));
    KeepsSize(s0, t1, n, Slots(w.c));
    AnyTest(t1, n + 1);
    t := JumpBack(w, s, t1, pos + 2, n + 1, WhileFrag(a, b.code, n, b.n + 1), hi, Jmp(n + 1), n + 1);
    ReachTrans(w.m, t0, t1, t);
    TestSlots(w.c, env, s0, t1, t, n, 0, Slots(w.c));
  }

  function DoFrag(a: Emitted, b: EmittedStmt): (r: Code)
    ensures |r| == |a.code| + |b.code| + 6
  {
    [ScopeBegin] + (b.code + ([ScopeEnd] + Condition(a, b.n + 1)))
  }

  lemma DoCode(b: EmittedStmt, a: Emitted, n: nat)
    ensures MakeDoWhile(b, a, n).code
         == [ScopeBegin] + ([Label(n + 1)] + (DoFrag(a, b) + ([Jnz(b.n + 1, 0, n + 1)] + [ScopeEnd])))
    ensures MakeDoWhile(b, a, n).n == a.n && |Condition(a, b.n + 1)| == |a.code| + 4
  {
    var rest := [Jnz(b.n + 1, 0, n + 1)] + [ScopeEnd];
    assert DoFrag(a, b) + rest
        == [ScopeBegin] + (b.code + ([ScopeEnd] + (Condition(a, b.n + 1) + [Jnz(b.n + 1, 0, n + 1), ScopeEnd])));
  }

  lemma DoShape(w: Site, pos: nat, a: Emitted, b: EmittedStmt, n: nat)
    requires Stands(w, pos, MakeDoWhile(b, a, n).code)
    ensures Stands(w, pos, [ScopeBegin, Label(n + 1)]) && Stands(w, pos + 1, [Label(n + 1)])
    ensures Stands(w, pos + 2, DoFrag(a, b))
    ensures Stands(w, pos + 8 + |a.code| + |b.code|, [Jnz(b.n + 1, 0, n + 1)])
    ensures Stands(w, pos + 9 + |a.code| + |b.code|, [ScopeEnd])
    ensures |MakeDoWhile(b, a, n).code| == 10 + |a.code| + |b.code|
  {
    hide *;
    DoCode(b, a, n);
    var rest := DoFrag(a, b) + ([Jnz(b.n + 1, 0, n + 1)] + [ScopeEnd]);
    assert [ScopeBegin] + ([Label(n + 1)] + rest) == [ScopeBegin, Label(n + 1)] + rest;
    Split(w, pos, [ScopeBegin, Label(n + 1)], rest);
    Split(w, pos, [ScopeBegin], [Label(n + 1)] + rest);
    Split(w, pos + 1, [Label(n + 1)], rest);
    Split(w, pos + 2, DoFrag(a, b), [Jnz(b.n + 1, 0, n + 1)] + [ScopeEnd]);
    Split(w, pos + 8 + |a.code| + |b.code|, [Jnz(b.n + 1, 0, n + 1)], [ScopeEnd]);
  }

  lemma DoBody(w: Site, pos: nat, a: Emitted, b: EmittedStmt)
    requires Stands(w, pos, DoFrag(a, b))
    ensures Stands(w, pos, [ScopeBegin]) && Stands(w, pos + 1, b.code) && Stands(w, pos + 1 + |b.code|, [ScopeEnd])
    ensures Stands(w, pos + 2 + |b.code|, Condition(a, b.n + 1)) && |Condition(a, b.n + 1)| == |a.code| + 4
  {
    hide Stands;
    Split(w, pos, [ScopeBegin], b.code + ([ScopeEnd] + Condition(a, b.n + 1)));
    Split(w, pos + 1, b.code, [ScopeEnd] + Condition(a, b.n + 1));
    Split(w, pos + 1 + |b.code|, [ScopeEnd], Condition(a, b.n + 1));
  }

  lemma DoFragFits(a: Emitted, b: EmittedStmt, hi: nat, n: nat, top: nat)
    requires Fits(b.code, n + 1, hi, top) && Fits(a.code, b.n + 1, a.n, top)
    requires n + 1 <= b.n <= hi <= b.n + 1 <= a.n <= top && a.lvid <= top
    ensures Fits(DoFrag(a, b), n + 1, a.n, top)
  {
    assert Flat([ScopeEnd], top) && Flat([ScopeBegin], top);
    hide Fits;
    FlatFits([ScopeEnd], b.n + 1, top);
    FlatFits([ScopeBegin], n + 1, top);
    ConditionFits(a, b.n + 1, b.n + 1, top);
    Cat([ScopeEnd], Condition(a, b.n + 1), b.n + 1, b.n + 1, b.n + 1, a.n, top);
    Cat(b.code, [ScopeEnd] + Condition(a, b.n + 1), n + 1, hi, b.n + 1, a.n, top);
    Cat([ScopeBegin], b.code + ([ScopeEnd] + Condition(a, b.n + 1)), n + 1, n + 1, n + 1, a.n, top);
  }

  lemma DoParts(w: Site, pos: nat, st: Stmt, n: nat)
    requires st.DoWhile? && Stands(w, pos, EmitStmt(st, w.c, n).code) && EmitStmt(st, w.c, n).n <= w.top
    requires GoodStmt(w.p, st, w.c.names.Keys, ShieldOf(w.c.hs)) && FitsCtx(w.c, n)
    ensures var b := EmitStmt(st.s, w.c, n + 1);
      var a := EmitExpr(st.c, w.c, b.n + 1);
      && Stands(w, pos, MakeDoWhile(b, a, n).code) && EmitStmt(st, w.c, n).code == MakeDoWhile(b, a, n).code
      && n + 1 <= b.n && b.n + 1 < a.n <= w.top && Fits(a.code, b.n + 1, a.n, w.top)
      && Fits(b.code, n + 1, LastLabel(st.s, b.n), w.top) && a.lvid <= w.top
    ensures GoodExpr(w.p, st.c, w.c.names.Keys) && GoodStmt(w.p, st.s, w.c.names.Keys, ShieldOf(w.c.hs))
  {
    UnfoldBranch(st, w.c, n);
    hide EmitStmt;
    hide EmitExpr;
    hide GoodExpr;
    hide Stands;
    hide Fits;
    hide LastLabel;
    var b := EmitStmt(st.s, w.c, n + 1);
    StmtGrows(st.s, w.c, n + 1);
    ExprGrows(st.c, w.c, b.n + 1);
    ExprFits(st.c, w.c, b.n + 1, w.top);
    StmtFits(st.s, w.c, n + 1, w.top);
  }

  lemma SimDoWhile(w: Site, s: State, pos: nat, st: Stmt, n: nat, env: Env, fuel: nat) returns (t: State)
    requires st.DoWhile?
    requires StmtAt(w, s, pos, st, n, env)
    requires CallsBelow(w.p, w.m, fuel)
    ensures Reaches(w.m, s, t)
    ensures SlowStmt(w.m, s, RunStmt(DoesAll(w.p), Does(st), env, ShieldOf(w.c.hs), s.trace, fuel), fuel)
    ensures StmtDone(w, s, t, pos + |EmitStmt(st, w.c, n).code|, n,
                     RunStmt(DoesAll(w.p), Does(st), env, ShieldOf(w.c.hs), s.trace, fuel))
    decreases fuel, st, 2
  {
    hide *;
    StmtAtMeans(w, s, pos, st, n, env);
    StartFits(w, s, pos, n);
    DoParts(w, pos, st, n);
    var b := EmitStmt(st.s, w.c, n + 1);
    DoShape(w, pos, EmitExpr(st.c, w.c, b.n + 1), b, n);
    LoopOpens(n, w.top);
    var t0 := StartThrough(w, s, pos, n, [ScopeBegin, Label(n + 1)], n + 1, n + 1);
    MovedKeeps(s, t0, n);
    AgreeSame(w.c, env, s, t0);
    NoSlots(w, s, t0, n);
    t := DoLoop(w, s, t0, pos, st, n, env, fuel);
    ReachTrans(w.m, s, t0, t);
    StmtSlowAfter(w.m, s, t0, RunStmt(DoesAll(w.p), Does(st), env, ShieldOf(w.c.hs), s.trace, fuel), fuel);
  }

  // The loop, from its body on
  lemma DoLoop(w: Site, s0: State, s: State, pos: nat, st: Stmt, n: nat, env: Env, fuel: nat) returns (t: State)
    requires st.DoWhile? && Start(w, s, pos + 2, n + 1) && FitsCtx(w.c, n)
    requires Stands(w, pos, EmitStmt(st, w.c, n).code) && EmitStmt(st, w.c, n).n <= w.top
    requires GoodStmt(w.p, st, w.c.names.Keys, ShieldOf(w.c.hs))
    requires Keeps(s0, s, n, Slots(w.c)) && Agree(w.c, env, s.act.regs)
    requires CallsBelow(w.p, w.m, fuel)
    ensures Reaches(w.m, s, t)
    ensures SlowStmt(w.m, s, RunStmt(DoesAll(w.p), Does(st), env, ShieldOf(w.c.hs), s.trace, fuel), fuel)
    ensures StmtDone(w, s0, t, pos + |EmitStmt(st, w.c, n).code|, n,
                     RunStmt(DoesAll(w.p), Does(st), env, ShieldOf(w.c.hs), s.trace, fuel))
    decreases fuel, st, 1
  {
    hide *;
    DoParts(w, pos, st, n);
    DoesLoopRun(DoesAll(w.p), st, env, ShieldOf(w.c.hs), s.trace, fuel);
    var b := EmitStmt(st.s, w.c, n + 1);
    var a := EmitExpr(st.c, w.c, b.n + 1);
    DoShape(w, pos, a, b, n);
    DoBody(w, pos + 2, a, b);
    ScopeIdle(w, 0);
    SlotsBound(w, s, pos + 2, n + 1);
    StartSize(w, s, pos + 2, n + 1);
    var body := RunStmt(DoesAll(w.p), Does(st.s), env, ShieldOf(w.c.hs), s.trace, fuel);
    if fuel == 0 {
      LoopTimesOut(w, s0, s, pos + 2, n + 1, n, env);
      return s;
    }
    var t0 := StartIdle(w, s, pos + 2, n + 1, [ScopeBegin], n + 1);
    TestSlots(w.c, env, s0, s, t0, n, 0, Slots(w.c));
    StmtIsAt(w, t0, pos + 3, st.s, n + 1, env);
    t := SimStmt(w, t0, pos + 3, st.s, n + 1, env, fuel);
    ReachTrans(w.m, s, t0, t);
    StmtSlowAfter(w.m, s, t0, body, fuel);
    AfterStmt(w, s0, t0, t, pos + 3, st.s, n, n + 1, env, body);
    if body.Normal? {
      var t1 := DoTest(w, s0, s, t, pos, st, n, fuel, body);
      StartDiffers(w, s, t, pos + 2, n + 1, pos + 3 + |b.code|, b.n);
      StmtSlowAfter(w.m, s, t, RunStmt(DoesAll(w.p), Does(st), env, ShieldOf(w.c.hs), s.trace, fuel), fuel - 1);
      ReachTrans(w.m, s, t, t1);
      t := t1;
    }
  }

  lemma DoTest(w: Site, s0: State, s: State, t0: State, pos: nat, st: Stmt, n: nat, fuel: nat, body: StmtOut)
    returns (t: State)
    requires st.DoWhile? && Start(w, s, pos + 2, n + 1) && FitsCtx(w.c, n)
    requires Stands(w, pos, EmitStmt(st, w.c, n).code) && EmitStmt(st, w.c, n).n <= w.top
    requires GoodStmt(w.p, st, w.c.names.Keys, ShieldOf(w.c.hs)) && Keeps(s0, s, n, Slots(w.c))
    requires var b := EmitStmt(st.s, w.c, n + 1);
      Start(w, t0, pos + 3 + |b.code|, b.n) && body.Normal?
    requires Keeps(s0, t0, n, Slots(w.c)) && Agree(w.c, body.env, t0.act.regs) && t0.trace == body.trace
    requires CallsBelow(w.p, w.m, fuel)
    requires var o := RunExpr(DoesAll(w.p), st.c, body.env, ShieldOf(w.c.hs), body.trace, fuel);
      o.Value? && o.v != 0 ==> fuel > 0
    ensures Reaches(w.m, t0, t)
    ensures var o := RunExpr(DoesAll(w.p), st.c, body.env, ShieldOf(w.c.hs), body.trace, fuel);
      var end := if o.ExprExit? then StmtExit(o.exit, body.env, o.trace)
                 else if o.v == 0 then Normal(body.env, o.trace)
                 else RunStmt(DoesAll(w.p), Does(st), body.env, ShieldOf(w.c.hs), o.trace, fuel - 1);
      StmtDone(w, s0, t, pos + |EmitStmt(st, w.c, n).code|, n, end) && SlowStmt(w.m, t0, end, fuel - 1)
    decreases fuel, st, 0
  {
    hide *;
    DoParts(w, pos, st, n);
    var b := EmitStmt(st.s, w.c, n + 1);
    var a := EmitExpr(st.c, w.c, b.n + 1);
    DoShape(w, pos, a, b, n);
    DoBody(w, pos + 2, a, b);
    ScopeIdle(w, 0);
    var q := pos + 3 + |b.code|;
    SlotsBound(w, t0, q, b.n);
    StartSize(w, t0, q, b.n);
    var t1 := StartIdle(w, t0, q, b.n, [ScopeEnd], b.n);
    TestSlots(w.c, body.env, s0, t0, t1, n, 0, Slots(w.c));
    var out := RunExpr(DoesAll(w.p), st.c, body.env, ShieldOf(w.c.hs), body.trace, fuel);
    var t2 := SimCondition(w, t1, q + 1, st.c, b.n, b.n + 1, body.env, fuel);
    ReachTrans(w.m, t0, t1, t2);
    ConditionStops(w, s0, t1, t2, q + 1, q + 5 + |a.code|, n, b.n, a.n, b.n + 1, body.env, out);
    t := t2;
    if out.ExprExit? {
      SlowAfter(w.m, t0, t1, out, fuel);
      StmtSlow(w.m, t0, out, body.env, fuel);
      SlowLess(w.m, t0, StmtExit(out.exit, body.env, out.trace), fuel);
    } else {
      if out.v == 0 {
        t := DoEnds(w, s0, t2, q + 5 + |a.code|, a.n, b.n + 1, n, body.env);
        StmtInTime(w.m, t0, Normal(body.env, out.trace), fuel - 1);
      } else {
        LastLabelBound(st.s, b.n);
        var t3 := DoBack(w, s0, s, t2, pos, a, b, LastLabel(st.s, b.n), n, body.env, out.v);
        CallsFewer(w.p, w.m, fuel, fuel - 1);
        t := DoLoop(w, s0, t3, pos, st, n, body.env, fuel - 1);
        ReachTrans(w.m, t2, t3, t);
        ReachTrans(w.m, t0, t2, t3);
        StmtSlowAfter(w.m, t0, t3, RunStmt(DoesAll(w.p), Does(st), body.env, ShieldOf(w.c.hs), out.trace, fuel - 1),
                      fuel - 1);
      }
      ReachTrans(w.m, t0, t2, t);
    }
  }

  lemma DoEnds(w: Site, s0: State, s: State, pos: nat, k: nat, cond: nat, n: nat, env: Env) returns (t: State)
    requires Start(w, s, pos, k) && Keeps(s0, s, n, Slots(w.c)) && Agree(w.c, env, s.act.regs) && Holds(s, cond, 0)
    requires Stands(w, pos, [Jnz(cond, 0, n + 1)]) && Stands(w, pos + 1, [ScopeEnd]) && cond <= w.top
    ensures Reaches(w.m, s, t) && StmtDone(w, s0, t, pos + 2, n, Normal(env, s.trace))
  {
    hide *;
    StartSize(w, s, pos, k);
    TestTaken(s, cond, 0, n + 1);
    ScopeIdle(w, 0);
    var t1 := JumpPassed(w, s, pos, k, Jnz(cond, 0, n + 1));
    t := StartIdle(w, t1, pos + 1, k, [ScopeEnd], k);
    ReachTrans(w.m, s, t1, t);
    MovedTrans(s, t1, t);
    MovedKeeps(s, t, 0);
    NormalDone(w, s0, s, t, pos + 2, k, n, env);
  }

  lemma DoBack(w: Site, s0: State, s: State, t0: State, pos: nat, a: Emitted, b: EmittedStmt, hi: nat, n: nat, env: Env,
               v: u64) returns (t: State)
    requires Start(w, s, pos + 2, n + 1) && Stands(w, pos, MakeDoWhile(b, a, n).code)
    requires Fits(b.code, n + 1, hi, w.top) && Fits(a.code, b.n + 1, a.n, w.top)
    requires n + 1 <= b.n <= hi <= b.n + 1 <= a.n <= w.top && a.lvid <= w.top
    requires Start(w, t0, pos + 8 + |a.code| + |b.code|, a.n) && Holds(t0, b.n + 1, v) && v != 0
    requires Keeps(s0, s, n, Slots(w.c)) && Keeps(s0, t0, n, Slots(w.c)) && Agree(w.c, env, t0.act.regs)
    ensures Reaches(w.m, t0, t) && Start(w, t, pos + 2, n + 1)
    ensures Keeps(s0, t, n, Slots(w.c)) && Agree(w.c, env, t.act.regs) && t.trace == t0.trace
  {
    hide *;
    DoShape(w, pos, a, b, n);
    DoFragFits(a, b, hi, n, w.top);
    var q := pos + 8 + |a.code| + |b.code|;
    StartSize(w, t0, q, a.n);
    SlotsBound(w, t0, q, a.n);
    KeepsSize(s0, s, n, Slots(w.c));
    KeepsSize(s0, t0, n, Slots(w.c));
    TestTaken(t0, b.n + 1, v, n + 1);
    t := JumpBack(w, s, t0, pos + 2, n + 1, DoFrag(a, b), a.n, Jnz(b.n + 1, 0, n + 1), n + 1);
    TestSlots(w.c, env, s0, t0, t, n, 1, Slots(w.c));
  }

  // ---- handlers ----

  lemma UnfoldFailRun(p: seq<Func>, st: Stmt, env: Env, h: Shield, trace: seq<Event>, fuel: nat)
    requires st.OnFail?
    ensures var o := RunStmt(p, st.s, env, h.With(st.atomid), trace, fuel);
      RunStmt(p, st, env, h, trace, fuel)
      == if o.StmtExit? && o.exit.Caught? && o.exit.k == |h.types| then HandlerRun(p, st, st.h, h, fuel, o) else o
  {
  }

  // The handler runs, with the error in its variable
  function HandlerRun(p: seq<Func>, st: Stmt, handler: Stmt, h: Shield, fuel: nat, o: StmtOut): StmtOut
    requires st.OnFail? && o.StmtExit? && o.exit.Caught?
  {
    if st.atomid == 0 then RunStmt(p, handler, o.env, h, o.trace, fuel)
    else Hide(RunStmt(p, handler, o.env[st.x := o.exit.error], h, o.trace, fuel), st.x, o.env)
  }

  // From the jump over the handler to the code it protects
  function OverSkip(atomid: nat, a: EmittedStmt, n: nat, exit: nat): (r: Code)
    ensures |r| == 5 + |Entrance(atomid, n + 1)| + |a.code| && r[0] == Jmp(a.n + 1)
  {
    [Jmp(a.n + 1), Label(n + 1)] + (Entrance(atomid, n + 1) + (a.code + [ScopeEnd, Jmp(exit), Label(a.n + 1)]))
  }

  // From the end of the handler to the end of the block
  function ExitSkip(b: EmittedStmt, over: nat): (r: Code)
    ensures |r| == 4 + |b.code| && r[0] == Jmp(b.n + 1)
  {
    [Jmp(b.n + 1), Label(over)] + (b.code + [Label(b.n + 1), ScopeEnd])
  }

  lemma OnFailShape(w: Site, pos: nat, atomid: nat, a: EmittedStmt, b: EmittedStmt, n: nat)
    requires Stands(w, pos, MakeOnFail(atomid, a, b, n).code)
    ensures var e := |Entrance(atomid, n + 1)|;
      && Stands(w, pos, [ScopeBegin]) && Stands(w, pos + 1, OverSkip(atomid, a, n, b.n + 1))
      && Stands(w, pos, [ScopeBegin, Jmp(a.n + 1), Label(n + 1)]) && Stands(w, pos + 2, [Label(n + 1)])
      && Stands(w, pos + 3, OverFrag(atomid, a, n, b.n + 1)) && |OverFrag(atomid, a, n, b.n + 1)| == e + |a.code| + 3
      && Stands(w, pos + 3, Entrance(atomid, n + 1)) && Stands(w, pos + 3 + e, a.code)
      && Stands(w, pos + 3 + e + |a.code|, [ScopeEnd])
      && Stands(w, pos + 4 + e + |a.code|, ExitSkip(b, a.n + 1))
      && Stands(w, pos + 6 + e + |a.code|, b.code)
      && Stands(w, pos + 6 + e + |a.code| + |b.code|, [Label(b.n + 1), ScopeEnd])
      && |MakeOnFail(atomid, a, b, n).code| == 8 + e + |a.code| + |b.code|
  {
    hide *;
    OnFailShape1(w, pos, atomid, a, b, n);
    OnFailShape2(w, pos, atomid, a, b, n);
    OnFailShape3(w, pos, atomid, a, b, n);
  }

  // The handler and the label after it
  function OverFrag(atomid: nat, a: EmittedStmt, n: nat, exit: nat): Code {
    Entrance(atomid, n + 1) + (a.code + [ScopeEnd, Jmp(exit), Label(a.n + 1)])
  }

  lemma OnFailShape1(w: Site, pos: nat, atomid: nat, a: EmittedStmt, b: EmittedStmt, n: nat)
    requires Stands(w, pos, MakeOnFail(atomid, a, b, n).code)
    ensures var e := |Entrance(atomid, n + 1)|;
      && Stands(w, pos, [ScopeBegin]) && Stands(w, pos + 1, OverSkip(atomid, a, n, b.n + 1))
      && Stands(w, pos + 6 + e + |a.code|, b.code)
      && Stands(w, pos + 6 + e + |a.code| + |b.code|, [Label(b.n + 1), ScopeEnd])
      && |MakeOnFail(atomid, a, b, n).code| == 8 + e + |a.code| + |b.code|
  {
    var exit := b.n + 1;
    var tail := b.code + [Label(exit), ScopeEnd];
    assert MakeOnFail(atomid, a, b, n).code == [ScopeBegin] + (OverSkip(atomid, a, n, exit) + tail);
    hide Stands;
    hide OverSkip;
    hide Entrance;
    Split(w, pos, [ScopeBegin], OverSkip(atomid, a, n, exit) + tail);
    Split(w, pos + 1, OverSkip(atomid, a, n, exit), tail);
    Split(w, pos + 1 + |OverSkip(atomid, a, n, exit)|, b.code, [Label(exit), ScopeEnd]);
  }

  lemma OnFailShape2(w: Site, pos: nat, atomid: nat, a: EmittedStmt, b: EmittedStmt, n: nat)
    requires Stands(w, pos, MakeOnFail(atomid, a, b, n).code)
    ensures var e := |Entrance(atomid, n + 1)|;
      && Stands(w, pos, [ScopeBegin, Jmp(a.n + 1), Label(n + 1)]) && Stands(w, pos + 2, [Label(n + 1)])
      && Stands(w, pos + 3, OverFrag(atomid, a, n, b.n + 1)) && |OverFrag(atomid, a, n, b.n + 1)| == e + |a.code| + 3
  {
    var rest := OverFrag(atomid, a, n, b.n + 1) + (b.code + [Label(b.n + 1), ScopeEnd]);
    assert MakeOnFail(atomid, a, b, n).code == [ScopeBegin, Jmp(a.n + 1), Label(n + 1)] + rest;
    assert [ScopeBegin, Jmp(a.n + 1), Label(n + 1)] == [ScopeBegin, Jmp(a.n + 1)] + [Label(n + 1)];
    hide Stands;
    hide Entrance;
    Split(w, pos, [ScopeBegin, Jmp(a.n + 1), Label(n + 1)], rest);
    Split(w, pos, [ScopeBegin, Jmp(a.n + 1)], [Label(n + 1)]);
    Split(w, pos + 3, OverFrag(atomid, a, n, b.n + 1), b.code + [Label(b.n + 1), ScopeEnd]);
  }

  lemma OnFailParts3(atomid: nat, a: EmittedStmt, b: EmittedStmt, n: nat)
    ensures MakeOnFail(atomid, a, b, n).code
         == [ScopeBegin, Jmp(a.n + 1), Label(n + 1)]
            + (Entrance(atomid, n + 1) + (a.code + ([ScopeEnd] + ExitSkip(b, a.n + 1))))
  {
    hide Entrance;
  }

  lemma OnFailShape3(w: Site, pos: nat, atomid: nat, a: EmittedStmt, b: EmittedStmt, n: nat)
    requires Stands(w, pos, MakeOnFail(atomid, a, b, n).code)
    ensures var e := |Entrance(atomid, n + 1)|;
      && Stands(w, pos + 3, Entrance(atomid, n + 1)) && Stands(w, pos + 3 + e, a.code)
      && Stands(w, pos + 3 + e + |a.code|, [ScopeEnd])
      && Stands(w, pos + 4 + e + |a.code|, ExitSkip(b, a.n + 1))
  {
    hide *;
    var tail := [ScopeEnd] + ExitSkip(b, a.n + 1);
    OnFailParts3(atomid, a, b, n);
    var e := Entrance(atomid, n + 1);
    Split(w, pos, [ScopeBegin, Jmp(a.n + 1), Label(n + 1)], e + (a.code + tail));
    Split(w, pos + 3, e, a.code + tail);
    Split(w, pos + 3 + |e|, a.code, tail);
    Split(w, pos + 3 + |e| + |a.code|, [ScopeEnd], ExitSkip(b, a.n + 1));
  }

  lemma OverSkipLands(atomid: nat, a: EmittedStmt, n: nat, exit: nat, n1: nat, top: nat) returns (first: nat)
    requires Fits(a.code, n1, a.n, top) && n + 1 <= a.n
    ensures Lands(OverSkip(atomid, a, n, exit), first, a.n + 1)
    ensures 0 < first < 5 + |Entrance(atomid, n + 1)| + |a.code|
  {
    first := 4 + |Entrance(atomid, n + 1)| + |a.code|;
    hide OrderedLabels;
  }

  lemma OverFits(atomid: nat, a: EmittedStmt, n: nat, exit: nat, top: nat)
    requires var n1 := FirstInHandler(atomid, n);
      Fits(a.code, n1, a.n, top) && n1 <= a.n < top
    ensures Fits(OverFrag(atomid, a, n, exit), n + 1, a.n + 1, top)
    ensures Fits(OverSkip(atomid, a, n, exit), n, a.n + 1, top)
    ensures Fits([ScopeBegin, Jmp(a.n + 1), Label(n + 1)], n, n + 1, top)
  {
    hide *;
    OnFailCode(atomid, a, a, n);
    EntranceFits(atomid, a.n + 1, n, top);
    ClosingFits(a.n, exit, a.n, top);
    var n1 := FirstInHandler(atomid, n);
    var end := [ScopeEnd, Jmp(exit), Label(a.n + 1)];
    Cat(a.code, end, n1, a.n, a.n, a.n + 1, top);
    Cat(Entrance(atomid, n + 1), a.code + end, n1, n1, n1, a.n + 1, top);
    OverMeans(atomid, a, n, exit);
    Widen(OverFrag(atomid, a, n, exit), n1, a.n + 1, n + 1, a.n + 1, top);
    HeadFits(a.n + 1, n, top);
    Cat([Jmp(a.n + 1), Label(n + 1)], OverFrag(atomid, a, n, exit), n, n + 1, n + 1, a.n + 1, top);
  }

  lemma HeadFits(over: nat, n: nat, top: nat)
    ensures Fits([Jmp(over), Label(n + 1)], n, n + 1, top)
  {
  }

  lemma OverMeans(atomid: nat, a: EmittedStmt, n: nat, exit: nat)
    ensures OverFrag(atomid, a, n, exit) == Entrance(atomid, n + 1) + (a.code + [ScopeEnd, Jmp(exit), Label(a.n + 1)])
    ensures OverSkip(atomid, a, n, exit) == [Jmp(a.n + 1), Label(n + 1)] + OverFrag(atomid, a, n, exit)
  {
  }

  lemma ExitSkipLands(b: EmittedStmt, f: nat, over: nat) returns (first: nat)
    requires Lands(b.code, f, b.n + 1) && over <= b.n
    ensures Lands(ExitSkip(b, over), first, b.n + 1) && 0 < first < 4 + |b.code|
  {
    assert [Label(b.n + 1), ScopeEnd] == [] + ([Label(b.n + 1)] + [ScopeEnd]);
    var g := LandsClosed(b.code, f, [], b.n + 1, [ScopeEnd]);
    LandsBefore([Jmp(b.n + 1), Label(over)], b.code + [Label(b.n + 1), ScopeEnd], g, b.n + 1);
    first := 2 + g;
  }

  lemma ExitSkipFits(b: EmittedStmt, hi: nat, m: nat, top: nat)
    requires Fits(b.code, m + 1, hi, top) && m + 1 <= b.n <= hi <= b.n + 1
    ensures Fits(ExitSkip(b, m + 1), m, b.n + 1, top)
  {
    ClosingFits(b.n, b.n, b.n, top);
    HeadFits(b.n + 1, m, top);
    hide Fits;
    Cat(b.code, [Label(b.n + 1), ScopeEnd], m + 1, hi, b.n, b.n + 1, top);
    Cat([Jmp(b.n + 1), Label(m + 1)], b.code + [Label(b.n + 1), ScopeEnd], m, m + 1, m + 1, b.n + 1, top);
  }

  // The site of the protected code
  function Protected(w: Site, pos: nat, atomid: nat, n: nat): Site {
    w.(c := w.c.With(atomid, n + 1), hp := w.hp + [pos + 2])
  }

  lemma ProtectedMeans(w: Site, pos: nat, atomid: nat, n: nat)
    requires CanRegister(ShieldOf(w.c.hs), atomid)
    ensures var w' := Protected(w, pos, atomid, n);
      && w'.p == w.p && w'.m == w.m && w'.f == w.f && w'.top == w.top && w'.c.names == w.c.names
      && ShieldOf(w'.c.hs) == ShieldOf(w.c.hs).With(atomid) && Slots(w'.c) == Slots(w.c)
      && w'.c.hs.Size() == w.c.hs.Size() + 1 && w.c.hs.Size() == |w.c.hs.typed| == |ShieldOf(w.c.hs).types|
      && w'.c.hs.At(|w.c.hs.typed|).target == n + 1
      && (forall k :: 0 <= k < |w.c.hs.typed| ==> w'.c.hs.At(k) == w.c.hs.At(k))
      && (|w'.c.hs.typed| == if atomid == 0 then |w.c.hs.typed| else |w.c.hs.typed| + 1)
  {
    var w' := Protected(w, pos, atomid, n);
    if atomid != 0 {
      assert w'.c.hs.Types() == w.c.hs.Types() + [atomid];
    } else {
      assert w'.c.hs.Types() == w.c.hs.Types();
    }
  }

  lemma ProtectedStart(w: Site, t: State, pos: nat, atomid: nat, a: EmittedStmt, n: nat, exit: nat)
    requires CanRegister(ShieldOf(w.c.hs), atomid)
    requires Stands(w, pos + 2, [Label(n + 1)]) && Stands(w, pos + 3, OverFrag(atomid, a, n, exit))
    requires Fits(OverFrag(atomid, a, n, exit), n + 1, a.n + 1, w.top) && n + 1 <= a.n
    requires Start(w, t, pos + 3 + |OverFrag(atomid, a, n, exit)|, a.n + 1) && Scoped(w.c, n)
    ensures Start(Protected(w, pos, atomid, n), t, pos + 3 + |OverFrag(atomid, a, n, exit)|, a.n + 1)
  {
    hide *;
    ProtectedMeans(w, pos, atomid, n);
    var q := pos + 3 + |OverFrag(atomid, a, n, exit)|;
    NewHandler(w, pos, n, OverFrag(atomid, a, n, exit), a.n + 1);
    StartParts(w, t, q, a.n + 1);
    ProtectedScene(w, pos, atomid, n, q, a.n + 1);
    ProtectedScoped(w, pos, atomid, n, a.n + 1);
    StartWhole(w, Protected(w, pos, atomid, n), t, q, a.n + 1);
  }

  lemma NewHandler(w: Site, pos: nat, n: nat, frag: Code, m: nat)
    requires Stands(w, pos + 2, [Label(n + 1)]) && Stands(w, pos + 3, frag) && Fits(frag, n + 1, m, w.top) && n + 1 <= m
    ensures HandlerAt(w.Text(), pos + 3 + |frag|, pos + 2, n + 1, m)
  {
    Reads(w, pos + 2, [Label(n + 1)], 0);
    LabelsAbove(w, pos + 3, frag, n + 1, m);
    hide Fits;
  }

  lemma StartParts(w: Site, s: State, pos: nat, n: nat)
    requires Start(w, s, pos, n)
    ensures w.Setup() && Scene(w.m, w.f, pos, n, w.c.hs, w.hp) && UpTo(w.Text(), pos) <= n + 1
    ensures Ready(w.m, s, w.f, pos, false) && CanReturn(s) && Scoped(w.c, n) && w.top < |s.act.regs|
  {
    hide Scene;
    hide Scoped;
    hide GoodProgram;
    hide UpTo;
  }

  lemma StartWhole(w: Site, w': Site, s: State, pos: nat, n: nat)
    requires Start(w, s, pos, n) && w'.p == w.p && w'.m == w.m && w'.f == w.f && w'.top == w.top
    requires Scene(w.m, w.f, pos, n, w'.c.hs, w'.hp) && Scoped(w'.c, n)
    ensures Start(w', s, pos, n)
  {
    hide Scene;
    hide Scoped;
    hide GoodProgram;
    hide UpTo;
  }

  lemma ProtectedScene(w: Site, pos: nat, atomid: nat, n: nat, q: nat, m: nat)
    requires Scene(w.m, w.f, q, m, w.c.hs, w.hp) && HandlerAt(w.Text(), q, pos + 2, n + 1, m)
    requires var w' := Protected(w, pos, atomid, n);
      && w'.c.hs.Size() == w.c.hs.Size() + 1 && w.c.hs.Size() == |w.c.hs.typed|
      && w'.c.hs.At(|w.c.hs.typed|).target == n + 1
      && (forall k :: 0 <= k < |w.c.hs.typed| ==> w'.c.hs.At(k) == w.c.hs.At(k))
    ensures Scene(w.m, w.f, q, m, Protected(w, pos, atomid, n).c.hs, Protected(w, pos, atomid, n).hp)
  {
    hide HandlerAt;
    hide OrderedLabels;
    hide PositiveLabels;
    var w' := Protected(w, pos, atomid, n);
    forall k | 0 <= k < |w'.hp|
      ensures HandlerAt(w.m.funcs[w.f], q, w'.hp[k], w'.c.hs.At(k).target, m)
    {
      if k < |w.hp| {
        assert HandlerAt(w.m.funcs[w.f], q, w.hp[k], w.c.hs.At(k).target, m);
      }
    }
  }

  lemma ProtectedScoped(w: Site, pos: nat, atomid: nat, n: nat, m: nat)
    requires Scoped(w.c, n) && n + 2 <= m
    requires var w' := Protected(w, pos, atomid, n);
      && w'.c.hs.Size() == w.c.hs.Size() + 1 && w.c.hs.Size() == |w.c.hs.typed|
      && w'.c.hs.At(|w.c.hs.typed|).target == n + 1
      && (forall k :: 0 <= k < |w.c.hs.typed| ==> w'.c.hs.At(k) == w.c.hs.At(k))
    ensures Scoped(Protected(w, pos, atomid, n).c, m)
  {
  }

  function FailCode(st: Stmt, c: Ctx, n: nat): (r: (EmittedStmt, EmittedStmt))
    requires st.OnFail?
    ensures r.0 == EmitStmt(st.h, InHandler(c, st.atomid, st.x, n), FirstInHandler(st.atomid, n))
    ensures r.1 == EmitStmt(st.s, c.With(st.atomid, n + 1), r.0.n + 1)
  {
    var a := EmitStmt(st.h, InHandler(c, st.atomid, st.x, n), FirstInHandler(st.atomid, n));
    (a, EmitStmt(st.s, c.With(st.atomid, n + 1), a.n + 1))
  }

  lemma OnFailParts(w: Site, pos: nat, st: Stmt, n: nat)
    requires st.OnFail? && Stands(w, pos, EmitStmt(st, w.c, n).code) && EmitStmt(st, w.c, n).n <= w.top
    requires GoodStmt(w.p, st, w.c.names.Keys, ShieldOf(w.c.hs)) && FitsCtx(w.c, n) && !EndsWithHandler(st.h)
    ensures var (a, b) := FailCode(st, w.c, n);
      && Stands(w, pos, MakeOnFail(st.atomid, a, b, n).code)
      && EmitStmt(st, w.c, n).code == MakeOnFail(st.atomid, a, b, n).code
      && n + 1 <= FirstInHandler(st.atomid, n) <= a.n && a.n + 1 <= b.n <= w.top
      && Fits(a.code, FirstInHandler(st.atomid, n), a.n, w.top)
      && Fits(b.code, a.n + 1, LastLabel(st.s, b.n), w.top)
    ensures CanRegister(ShieldOf(w.c.hs), st.atomid)
    ensures GoodStmt(w.p, st.h, if st.atomid == 0 then w.c.names.Keys else w.c.names.Keys + {st.x}, ShieldOf(w.c.hs))
    ensures GoodStmt(w.p, st.s, w.c.names.Keys, ShieldOf(w.c.hs).With(st.atomid))
  {
    hide *;
    UnfoldBlock(st, w.c, n);
    GoodOnFail(w.p, st, w.c.names.Keys, ShieldOf(w.c.hs));
    HandlerCtx(st, w.c, n);
    var c1 := InHandler(w.c, st.atomid, st.x, n);
    var n1 := FirstInHandler(st.atomid, n);
    StmtGrows(st.h, c1, n1);
    var a := EmitStmt(st.h, c1, n1);
    var c2 := w.c.With(st.atomid, n + 1);
    StmtGrows(st.s, c2, a.n + 1);
    var b := EmitStmt(st.s, c2, a.n + 1);
    OnFailCode(st.atomid, a, b, n);
    ProtectedCtx(st, w.c, n, a.n + 1);
    LastIsCounter(st.h, a.n);
    StmtFits(st.h, c1, n1, w.top);
    StmtFits(st.s, c2, a.n + 1, w.top);
  }

  lemma GoodOnFail(p: seq<Func>, st: Stmt, names: set<nat>, h: Shield)
    requires st.OnFail? && GoodStmt(p, st, names, h)
    ensures CanRegister(h, st.atomid)
    ensures GoodStmt(p, st.h, if st.atomid == 0 then names else names + {st.x}, h)
    ensures GoodStmt(p, st.s, names, h.With(st.atomid))
  {
    hide CanRegister;
    hide EndsWithHandler;
  }

  lemma SimOnFail(w: Site, s: State, pos: nat, st: Stmt, n: nat, env: Env, fuel: nat) returns (t: State)
    requires st.OnFail?
    requires StmtAt(w, s, pos, st, n, env)
    requires CallsBelow(w.p, w.m, fuel)
    ensures Reaches(w.m, s, t)
    ensures SlowStmt(w.m, s, RunStmt(DoesAll(w.p), Does(st), env, ShieldOf(w.c.hs), s.trace, fuel), fuel)
    ensures StmtDone(w, s, t, pos + |EmitStmt(st, w.c, n).code|, n,
                     RunStmt(DoesAll(w.p), Does(st), env, ShieldOf(w.c.hs), s.trace, fuel))
    decreases fuel, st, 2
  {
    hide *;
    DoesFailRun(DoesAll(w.p), st, env, ShieldOf(w.c.hs), s.trace, fuel);
    if EndsWithHandler(st.h) {
      StmtAtMeans(w, s, pos, st, n, env);
      t := ProtectedIsSkipped(w, s, pos, st, n, env);
      StmtInTime(w.m, s, Normal(env, s.trace), fuel);
    } else {
      t := SimProtected(w, s, pos, st, n, env, fuel);
    }
  }

  lemma SimProtected(w: Site, s: State, pos: nat, st: Stmt, n: nat, env: Env, fuel: nat) returns (t: State)
    requires st.OnFail? && !EndsWithHandler(st.h)
    requires StmtAt(w, s, pos, st, n, env)
    requires CallsBelow(w.p, w.m, fuel)
    ensures Reaches(w.m, s, t)
    ensures SlowStmt(w.m, s, RunStmt(DoesAll(w.p), Does(st), env, ShieldOf(w.c.hs), s.trace, fuel), fuel)
    ensures StmtDone(w, s, t, pos + |EmitStmt(st, w.c, n).code|, n,
                     RunStmt(DoesAll(w.p), Does(st), env, ShieldOf(w.c.hs), s.trace, fuel))
    decreases fuel, st, 1, 1
  {
    hide *;
    StmtAtMeans(w, s, pos, st, n, env);
    StartFits(w, s, pos, n);
    OnFailParts(w, pos, st, n);
    DoesFailRun(DoesAll(w.p), st, env, ShieldOf(w.c.hs), s.trace, fuel);
    var (a, b) := FailCode(st, w.c, n);
    var e := |Entrance(st.atomid, n + 1)|;
    OnFailShape(w, pos, st.atomid, a, b, n);
    ProtectedMeans(w, pos, st.atomid, n);
    var w' := Protected(w, pos, st.atomid, n);
    ProtectedStands(w, pos, st.atomid, n, pos + 6 + e + |a.code|, b.code);
    ProtectedStands(w, pos, st.atomid, n, pos + 6 + e + |a.code| + |b.code|, [Label(b.n + 1), ScopeEnd]);
    StartScoped(w, s, pos, n);
    var t0 := OverHandler(w, s, pos, st, a, b, n);
    MovedKeeps(s, t0, n);
    AgreeSame(w.c, env, s, t0);
    NoSlots(w, s, t0, n);
    var q := pos + 6 + e + |a.code|;
    var out := RunStmt(DoesAll(w.p), Does(st.s), env, ShieldOf(w.c.hs).With(st.atomid), s.trace, fuel);
    AgreeNames(w.c, w'.c, env, t0.act.regs);
    StmtIsAt(w', t0, q, st.s, a.n + 1, env);
    t := SimStmt(w', t0, q, st.s, a.n + 1, env, fuel);
    ReachTrans(w.m, s, t0, t);
    StmtSlowAfter(w.m, s, t0, out, fuel);
    if out.StmtExit? && out.exit.Caught? && out.exit.k == |ShieldOf(w.c.hs).types| {
      var t1 := HandlerTurn(w, s, t0, t, pos, st, n, fuel, q + |b.code|, out);
      StmtSlowAfter(w.m, s, t, RunStmt(DoesAll(w.p), Does(st), env, ShieldOf(w.c.hs), s.trace, fuel), fuel);
      ReachTrans(w.m, s, t, t1);
      t := t1;
    } else {
      AfterStmt(w', s, t0, t, q, st.s, n, a.n + 1, env, out);
      if out.Normal? {
        var t1 := LeaveBlock(w', s, t, q + |b.code|, b.n, n, out.env);
        ReachTrans(w.m, s, t, t1);
        t := t1;
      }
      ProtectedDone(w, s, t, pos, st.atomid, q + |b.code| + 2, n, out);
    }
  }

  lemma ProtectedStands(w: Site, pos: nat, atomid: nat, n: nat, q: nat, frag: Code)
    requires Stands(w, q, frag)
    ensures Stands(Protected(w, pos, atomid, n), q, frag)
    ensures Protected(w, pos, atomid, n).c == w.c.With(atomid, n + 1)
  {
  }

  lemma AgreeNames(c: Ctx, c': Ctx, env: Env, regs: seq<u64>)
    requires Agree(c, env, regs) && c'.names == c.names
    ensures Agree(c', env, regs)
  {
  }

  // Over the handler
  lemma OverHandler(w: Site, s: State, pos: nat, st: Stmt, a: EmittedStmt, b: EmittedStmt, n: nat) returns (t: State)
    requires st.OnFail? && Start(w, s, pos, n) && Stands(w, pos, MakeOnFail(st.atomid, a, b, n).code)
    requires Fits(a.code, FirstInHandler(st.atomid, n), a.n, w.top)
    requires n + 1 <= FirstInHandler(st.atomid, n) <= a.n < w.top && CanRegister(ShieldOf(w.c.hs), st.atomid)
    ensures Reaches(w.m, s, t) && Moved(s, t, s.act.regs)
    ensures Start(Protected(w, pos, st.atomid, n), t, pos + 6 + |Entrance(st.atomid, n + 1)| + |a.code|, a.n + 1)
  {
    hide *;
    OnFailShape(w, pos, st.atomid, a, b, n);
    ScopeIdle(w, 0);
    StartScoped(w, s, pos, n);
    OverFits(st.atomid, a, n, b.n + 1, w.top);
    var t1 := StartIdle(w, s, pos, n, [ScopeBegin], n);
    StartFits(w, s, pos, n);
    StartSize(w, t1, pos + 1, n);
    AnyTest(t1, a.n + 1);
    var first := OverSkipLands(st.atomid, a, n, b.n + 1, FirstInHandler(st.atomid, n), w.top);
    t := JumpAhead(w, t1, pos + 1, n, OverSkip(st.atomid, a, n, b.n + 1), first, a.n + 1, a.n + 1);
    ReachTrans(w.m, s, t1, t);
    MovedTrans(s, t1, t);
    ProtectedStart(w, t, pos, st.atomid, a, n, b.n + 1);
  }

  // The protected code is over
  lemma LeaveBlock(w: Site, s0: State, s: State, pos: nat, m: nat, n: nat, env: Env) returns (t: State)
    requires Start(w, s, pos, m) && Stands(w, pos, [Label(m + 1), ScopeEnd])
    requires Keeps(s0, s, n, Slots(w.c)) && Agree(w.c, env, s.act.regs)
    ensures Reaches(w.m, s, t) && StmtDone(w, s0, t, pos + 2, n, Normal(env, s.trace))
  {
    hide *;
    ExitFits(m, w.top);
    t := StartThrough(w, s, pos, m, [Label(m + 1), ScopeEnd], m + 1, m + 1);
    NormalDone(w, s0, s, t, pos + 2, m + 1, n, env);
  }

  lemma ExitFits(m: nat, top: nat)
    ensures Fits([Label(m + 1), ScopeEnd], m, m + 1, top) && IsIdle(ScopeEnd) && IsIdle(Label(m + 1))
  {
  }

  // The handler of the block is gone
  lemma ProtectedDone(w: Site, s: State, t: State, pos: nat, atomid: nat, q: nat, n: nat, out: StmtOut)
    requires StmtDone(Protected(w, pos, atomid, n), s, t, q, n, out) && CanRegister(ShieldOf(w.c.hs), atomid)
    requires !(out.StmtExit? && out.exit.Caught? && out.exit.k == |ShieldOf(w.c.hs).types|)
    requires |w.hp| == w.c.hs.Size()
    ensures StmtDone(w, s, t, q, n, out)
  {
    ProtectedMeans(w, pos, atomid, n);
    var w' := Protected(w, pos, atomid, n);
    hide CanRegister;
    if out.Normal? {
      AgreeNames(w'.c, w.c, out.env, t.act.regs);
    } else if out.StmtExit? && out.exit.Caught? {
      AgreeNames(w'.c, w.c, out.env, t.act.regs);
    }
  }

  // The error has reached the handler of the block
  lemma HandlerTurn(w: Site, s: State, t0: State, u: State, pos: nat, st: Stmt, n: nat, fuel: nat, q: nat, out: StmtOut)
    returns (t: State)
    requires st.OnFail? && Start(w, s, pos, n) && Stands(w, pos, EmitStmt(st, w.c, n).code)
    requires EmitStmt(st, w.c, n).n <= w.top && GoodStmt(w.p, st, w.c.names.Keys, ShieldOf(w.c.hs))
    requires !EndsWithHandler(st.h) && Moved(s, t0, s.act.regs) && CallsBelow(w.p, w.m, fuel)
    requires out.StmtExit? && out.exit.Caught? && out.exit.k == |ShieldOf(w.c.hs).types|
    requires StmtDone(Protected(w, pos, st.atomid, n), t0, u, q, FailCode(st, w.c, n).0.n + 1, out)
    ensures Reaches(w.m, u, t)
    ensures SlowStmt(w.m, u, HandlerRun(DoesAll(w.p), st, Does(st.h), ShieldOf(w.c.hs), fuel, out), fuel)
    ensures StmtDone(w, s, t, pos + |EmitStmt(st, w.c, n).code|, n,
                     HandlerRun(DoesAll(w.p), st, Does(st.h), ShieldOf(w.c.hs), fuel, out))
    decreases fuel, st, 1, 0
  {
    hide *;
    StartFits(w, s, pos, n);
    StartScoped(w, s, pos, n);
    OnFailParts(w, pos, st, n);
    var (a, b) := FailCode(st, w.c, n);
    var e := |Entrance(st.atomid, n + 1)|;
    OnFailShape(w, pos, st.atomid, a, b, n);
    CaughtMeans(w, s, t0, u, pos, st.atomid, n, q, a.n + 1, out);
    EnterHandler(w, s, u, pos, st.atomid, a, b, n);
    EntranceIdle(w, st.atomid, n);
    var u1 := StartIdle(w, u, pos + 3, n + 1, Entrance(st.atomid, n + 1), FirstInHandler(st.atomid, n));
    EnterKeeps(w, s, u, u1, n, out.env, st.atomid, out.exit.error);
    var h := HandlerRun(DoesAll(w.p), st, Does(st.h), ShieldOf(w.c.hs), fuel, out);
    t := SimHandler(w, s, u1, pos + 3 + e, st, n, fuel, out);
    ReachTrans(w.m, u, u1, t);
    StmtSlowAfter(w.m, u, u1, h, fuel);
    if h.Normal? {
      NormalMeans(w, s, t, pos + 3 + e + |a.code|, n, h);
      KeepsSize(s, t, n, Slots(w.c));
      KeepsSize(s, u1, n + 1, Slots(w.c));
      StartMoves(w, u1, t, pos + 3 + e, FirstInHandler(st.atomid, n), a.code, a.n, a.n);
      StartFits(w, u1, pos + 3 + e, FirstInHandler(st.atomid, n));
      MaxMeans(UpTo(w.Text(), pos + 3 + e), a.n);
      var t1 := HandlerEnds(w, s, t, pos + 3 + e + |a.code|, st, a.n, n, h.env);
      ReachTrans(w.m, u, t, t1);
      t := t1;
    } else {
      NormalOnly(w, s, t, pos + 3 + e + |a.code|, pos + |EmitStmt(st, w.c, n).code|, n, h);
    }
  }

  lemma NormalOnly(w: Site, s: State, t: State, pos: nat, pos': nat, n: nat, out: StmtOut)
    requires StmtDone(w, s, t, pos, n, out) && !out.Normal?
    ensures StmtDone(w, s, t, pos', n, out)
  {
  }

  lemma CaughtMeans(w: Site, s: State, t0: State, u: State, pos: nat, atomid: nat, n: nat, q: nat, m: nat, out: StmtOut)
    requires StmtDone(Protected(w, pos, atomid, n), t0, u, q, m, out) && CanRegister(ShieldOf(w.c.hs), atomid)
    requires out.StmtExit? && out.exit.Caught? && out.exit.k == |ShieldOf(w.c.hs).types| && |w.hp| == w.c.hs.Size()
    requires Moved(s, t0, s.act.regs) && n + 2 <= m
    ensures Ready(w.m, u, w.f, pos + 3, false) && Keeps(s, u, n + 1, Slots(w.c)) && Agree(w.c, out.env, u.act.regs)
    ensures atomid != 0 ==> Holds(u, n + 2, out.exit.error)
    ensures u.trace == out.trace
  {
    ProtectedMeans(w, pos, atomid, n);
    var w' := Protected(w, pos, atomid, n);
    hide CanRegister;
    hide UpTo;
    AgreeNames(w'.c, w.c, out.env, u.act.regs);
  }

  lemma EnterHandler(w: Site, s: State, u: State, pos: nat, atomid: nat, a: EmittedStmt, b: EmittedStmt, n: nat)
    requires Start(w, s, pos, n) && Stands(w, pos, [ScopeBegin, Jmp(a.n + 1), Label(n + 1)])
    requires Ready(w.m, u, w.f, pos + 3, false) && Keeps(s, u, n + 1, Slots(w.c))
    ensures Start(w, u, pos + 3, n + 1) && UpTo(w.Text(), pos + 3) <= n + 1
  {
    hide *;
    EntranceFits(0, a.n + 1, n, n + 2);
    HeadIsLow(w, a.n + 1, n);
    KeepsSize(s, u, n + 1, Slots(w.c));
    StartFits(w, s, pos, n);
    StartMoves(w, s, u, pos, n, [ScopeBegin, Jmp(a.n + 1), Label(n + 1)], n + 1, n + 1);
    MaxMeans(UpTo(w.Text(), pos), n + 1);
  }

  lemma HeadIsLow(w: Site, over: nat, n: nat)
    ensures Fits([ScopeBegin, Jmp(over), Label(n + 1)], n, n + 1, w.top)
  {
  }

  lemma EntranceIdle(w: Site, atomid: nat, n: nat)
    requires n + 2 <= w.top
    ensures var e := Entrance(atomid, n + 1);
      Flat(e, w.top) && forall i :: 0 <= i < |e| ==> IsIdle(e[i])
  {
  }

  lemma EnterKeeps(w: Site, s: State, u: State, u1: State, n: nat, env: Env, atomid: nat, error: u64)
    requires Keeps(s, u, n + 1, Slots(w.c)) && Agree(w.c, env, u.act.regs) && Moved(u, u1, u.act.regs)
    requires atomid != 0 ==> Holds(u, n + 2, error)
    ensures Keeps(s, u1, n + 1, Slots(w.c)) && Agree(w.c, env, u1.act.regs) && u1.trace == u.trace
    ensures atomid != 0 ==> Holds(u1, n + 2, error)
  {
  }

  // The handler itself
  lemma SimHandler(w: Site, s: State, u: State, pos: nat, st: Stmt, n: nat, fuel: nat, out: StmtOut) returns (t: State)
    requires st.OnFail? && out.StmtExit? && out.exit.Caught? && Start(w, u, pos, FirstInHandler(st.atomid, n))
    requires Keeps(s, u, n + 1, Slots(w.c)) && Agree(w.c, out.env, u.act.regs) && Scoped(w.c, n)
    requires FitsHandlers(w.c.hs, n)
    requires forall y :: y in w.c.names ==> w.c.names[y] <= n
    requires st.atomid != 0 ==> Holds(u, n + 2, out.exit.error)
    requires u.trace == out.trace && CallsBelow(w.p, w.m, fuel)
    requires var a := FailCode(st, w.c, n).0;
      Stands(w, pos, a.code) && a.n <= w.top
    requires GoodStmt(w.p, st.h, if st.atomid == 0 then w.c.names.Keys else w.c.names.Keys + {st.x}, ShieldOf(w.c.hs))
    ensures Reaches(w.m, u, t)
    ensures SlowStmt(w.m, u, HandlerRun(DoesAll(w.p), st, Does(st.h), ShieldOf(w.c.hs), fuel, out), fuel)
    ensures StmtDone(w, s, t, pos + |FailCode(st, w.c, n).0.code|, n,
                     HandlerRun(DoesAll(w.p), st, Does(st.h), ShieldOf(w.c.hs), fuel, out))
    decreases fuel, st, 0
  {
    hide *;
    var a := FailCode(st, w.c, n).0;
    HandlerMeans(w, st, n, fuel, out);
    KeepsLess(s, u, n + 1, n, Slots(w.c));
    if st.atomid == 0 {
      StmtIsAt(w, u, pos, st.h, n + 1, out.env);
      t := SimStmt(w, u, pos, st.h, n + 1, out.env, fuel);
      EndsAs(w, s, u, t, pos + |a.code|, n, n + 1, HandlerRun(DoesAll(w.p), st, Does(st.h), ShieldOf(w.c.hs), fuel,
                                                              out));
    } else {
      var w' := Declared(w, st.x, n + 2);
      var env := out.env[st.x := out.exit.error];
      var o := RunStmt(DoesAll(w.p), Does(st.h), env, ShieldOf(w.c.hs), out.trace, fuel);
      HandlersMore(w.c, n);
      DeclaredStart(w, u, pos, n + 1, n + 2, st.x);
      DeclaredAgree(w, out.env, u, n + 1, st.x, out.exit.error);
      StmtIsAt(w', u, pos, st.h, n + 2, env);
      t := SimStmt(w', u, pos, st.h, n + 2, env, fuel);
      HideSlow(w.m, u, o, st.x, out.env, fuel);
      DeclaredDone(w, s, u, t, pos + |a.code|, n + 1, n + 2, st.x, out.env, o);
      KeepsNothing(s, n, Slots(w.c));
      EndsAs(w, s, s, t, pos + |a.code|, n, n + 1, Hide(o, st.x, out.env));
    }
  }

  lemma KeepsLess(s: State, t: State, n: nat, n': nat, slots: set<nat>)
    requires Keeps(s, t, n, slots) && n' <= n
    ensures Keeps(s, t, n', slots)
  {
  }

  lemma KeepsNothing(s: State, n: nat, slots: set<nat>)
    ensures Keeps(s, s, n, slots)
  {
  }

  lemma HandlersMore(c: Ctx, n: nat)
    requires Scoped(c, n) && FitsHandlers(c.hs, n)
    ensures Scoped(c, n + 1) && FitsHandlers(c.hs, n + 1)
  {
  }

  lemma HandlerMeans(w: Site, st: Stmt, n: nat, fuel: nat, out: StmtOut)
    requires st.OnFail? && out.StmtExit? && out.exit.Caught?
    ensures st.atomid == 0 ==>
      && InHandler(w.c, st.atomid, st.x, n) == w.c && FirstInHandler(st.atomid, n) == n + 1
      && HandlerRun(DoesAll(w.p), st, Does(st.h), ShieldOf(w.c.hs), fuel, out)
         == RunStmt(DoesAll(w.p), Does(st.h), out.env, ShieldOf(w.c.hs), out.trace, fuel)
    ensures st.atomid != 0 ==> var w' := Declared(w, st.x, n + 2);
      && InHandler(w.c, st.atomid, st.x, n) == w'.c && FirstInHandler(st.atomid, n) == n + 2
      && w'.p == w.p && w'.m == w.m && w'.f == w.f && w'.top == w.top && w'.c.hs == w.c.hs
      && w'.c.names.Keys == w.c.names.Keys + {st.x}
      && (forall pos, frag :: Stands(w, pos, frag) ==> Stands(w', pos, frag))
      && HandlerRun(DoesAll(w.p), st, Does(st.h), ShieldOf(w.c.hs), fuel, out)
         == Hide(RunStmt(DoesAll(w.p), Does(st.h), out.env[st.x := out.exit.error], ShieldOf(w.c.hs), out.trace, fuel),
                 st.x, out.env)
  {
    hide RunStmt;
  }

  // Out of the handler, over the protected code
  lemma HandlerEnds(w: Site, s0: State, s: State, pos: nat, st: Stmt, m: nat, n: nat, env: Env) returns (t: State)
    requires st.OnFail? && Start(w, s, pos, m)
    requires Keeps(s0, s, n, Slots(w.c)) && Agree(w.c, env, s.act.regs) && FitsCtx(w.c, n) && n + 2 <= m + 1
    requires var b := EmitStmt(st.s, w.c.With(st.atomid, n + 1), m + 1);
      && Stands(w, pos, [ScopeEnd]) && Stands(w, pos + 1, ExitSkip(b, m + 1)) && m + 1 <= b.n <= w.top
      && Fits(b.code, m + 1, LastLabel(st.s, b.n), w.top)
    ensures Reaches(w.m, s, t)
    ensures StmtDone(w, s0, t, pos + 5 + |EmitStmt(st.s, w.c.With(st.atomid, n + 1), m + 1).code|, n,
                     Normal(env, s.trace))
  {
    hide *;
    var b := EmitStmt(st.s, w.c.With(st.atomid, n + 1), m + 1);
    ScopeIdle(w, 0);
    var t1 := StartIdle(w, s, pos, m, [ScopeEnd], m);
    StartSize(w, t1, pos + 1, m);
    SlotsBound(w, s, pos, m);
    TestSlots(w.c, env, s0, s, t1, n, 0, Slots(w.c));
    ProtectedCtx(st, w.c, n, m + 1);
    LastLabelBound(st.s, b.n);
    var f := StmtLands(st.s, w.c.With(st.atomid, n + 1), m + 1, w.top);
    var first := ExitSkipLands(b, f, m + 1);
    ExitSkipFits(b, LastLabel(st.s, b.n), m, w.top);
    AnyTest(t1, b.n + 1);
    t := JumpAhead(w, t1, pos + 1, m, ExitSkip(b, m + 1), first, b.n + 1, b.n + 1);
    ReachTrans(w.m, s, t1, t);
    TestSlots(w.c, env, s0, t1, t, n, 0, Slots(w.c));
    EndsHere(w, s0, t, pos + 5 + |b.code|, b.n + 1, n, env);
  }

  // ---- labels shared with the handler which ends a statement ----

  // A statement which ends with a handler, jumped over by its own last label
  lemma JumpInto(w: Site, s: State, pos: nat, k: nat, head: Code, st: Stmt, c: Ctx, n: nat) returns (t: State)
    requires Start(w, s, pos, k) && EndsWithHandler(st) && FitsCtx(c, n) && k <= n
    requires var b := EmitStmt(st, c, n);
      && Stands(w, pos, head + b.code) && n < b.n + 1 && b.n <= w.top && |head| > 0
      && Fits(head, k, n, w.top) && IsJump(head[0]) && head[0].target == b.n + 1 && UpTo(w.Text(), pos) < b.n + 1
    requires MaxLvid(head[0]) < |s.act.regs| && Taken(head[0], s.act.regs)
    ensures Reaches(w.m, s, t) && Start(w, t, pos + |head| + |EmitStmt(st, c, n).code|, EmitStmt(st, c, n).n)
    ensures Moved(s, t, AfterJump(head[0], s.act.regs))
  {
    hide *;
    var b := EmitStmt(st, c, n);
    var f := StmtLands(st, c, n, w.top);
    StmtFits(st, c, n, w.top);
    LastLabelBound(st, b.n);
    TailMeans(st, b.n);
    StmtGrows(st, c, n);
    Cat(head, b.code, k, n, n, b.n + 1, w.top);
    var first := PrefixLands(head, k, n, w.top, b.code, f, b.n + 1);
    HeadMeans(head, k, n, w.top, b.code, first, b.n + 1);
    t := JumpAhead(w, s, pos, k, head + b.code, first, b.n + 1, b.n);
  }

  lemma TailMeans(st: Stmt, n: nat)
    requires EndsWithHandler(st)
    ensures LastLabel(st, n) == n + 1
  {
  }

  lemma HeadMeans(head: Code, k: nat, n: nat, top: nat, code: Code, first: nat, id: nat)
    requires Fits(head, k, n, top) && |head| > 0 && Lands(head + code, first, id) && n < id && IsJump(head[0])
    requires first < |head + code|
    ensures first > 0 && MaxLvid(head[0]) <= top && (head + code)[0] == head[0]
  {
  }

  // If-else, the first branch ending with a handler: when the condition does not hold, neither branch runs
  lemma ElseIsSkipped(w: Site, s0: State, s: State, pos: nat, st: Stmt, k: nat, n: nat, env: Env) returns (t: State)
    requires st.IfElse? && Start(w, s, pos, k) && UpTo(w.Text(), pos) <= k && n + 1 < k
    requires Keeps(s0, s, n, Slots(w.c)) && Agree(w.c, env, s.act.regs) && Holds(s, n + 1, 0)
    requires var b := EmitStmt(st.t, w.c, k);
      var d := EmitStmt(st.f, w.c, b.n + 1);
      && Stands(w, pos, FirstSkip(b.code, n + 1, b.n + 1, d.n + 1) + (d.code + [ScopeEnd, Label(d.n + 1)]))
      && k <= b.n && b.n + 1 <= d.n < w.top
    requires EndsWithHandler(st.t)
    ensures Reaches(w.m, s, t)
    ensures var b := EmitStmt(st.t, w.c, k);
      StmtDone(w, s0, t, pos + 8 + |b.code| + |EmitStmt(st.f, w.c, b.n + 1).code|, n, Normal(env, s.trace))
  {
    hide *;
    var b := EmitStmt(st.t, w.c, k);
    var d := EmitStmt(st.f, w.c, b.n + 1);
    FirstShape(w, pos, b, d, n + 1);
    StartSize(w, s, pos, k);
    StartFits(w, s, pos, k);
    SlotsBound(w, s, pos, k);
    TestTaken(s, n + 1, 0, b.n + 1);
    TestStands(w, pos, n + 1, b.n + 1, b.code);
    TestHead(n + 1, b.n + 1, k, w.top);
    var t1 := JumpInto(w, s, pos, k, [Jz(n + 1, 0, b.n + 1), ScopeBegin], st.t, w.c, k);
    TestSlots(w.c, env, s0, s, t1, n, 0, Slots(w.c));
    t := FirstCloses(w, s0, t1, pos + 2 + |b.code|, b.n, st.f, n, env);
    ReachTrans(w.m, s, t1, t);
  }

  lemma TestStands(w: Site, pos: nat, cond: nat, id: nat, code: Code)
    requires Stands(w, pos, [Jz(cond, 0, id)]) && Stands(w, pos + 1, [ScopeBegin]) && Stands(w, pos + 2, code)
    ensures Stands(w, pos, [Jz(cond, 0, id), ScopeBegin] + code)
  {
    Reads(w, pos, [Jz(cond, 0, id)], 0);
    Reads(w, pos + 1, [ScopeBegin], 0);
    var frag := [Jz(cond, 0, id), ScopeBegin] + code;
    forall i | 0 <= i < |frag|
      ensures w.m.funcs[w.f][pos + i] == frag[i]
    {
      if i >= 2 {
        Reads(w, pos + 2, code, i - 2);
      }
    }
  }

  lemma TestHead(cond: nat, id: nat, k: nat, top: nat)
    requires cond <= top
    ensures Fits([Jz(cond, 0, id), ScopeBegin], k, k, top)
  {
  }

  // While, the body ending with a handler: when the condition does not hold, the loop starts again
  lemma LoopNeverLeaves(w: Site, s0: State, s: State, t0: State, pos: nat, st: Stmt, n: nat,
                        env: Env) returns (t: State)
    requires st.While? && Start(w, s, pos + 2, n + 1) && FitsCtx(w.c, n) && Keeps(s0, s, n, Slots(w.c))
    requires Stands(w, pos, EmitStmt(st, w.c, n).code) && EmitStmt(st, w.c, n).n <= w.top
    requires var a := EmitExpr(st.c, w.c, n + 2);
      && Start(w, t0, pos + 6 + |a.code|, a.n) && UpTo(w.Text(), pos + 6 + |a.code|) <= a.n
    requires Keeps(s0, t0, n, Slots(w.c)) && Agree(w.c, env, t0.act.regs) && Holds(t0, n + 2, 0)
    requires EndsWithHandler(st.s)
    ensures Reaches(w.m, t0, t) && Start(w, t, pos + 2, n + 1)
    ensures Keeps(s0, t, n, Slots(w.c)) && Agree(w.c, env, t.act.regs) && t.trace == t0.trace
  {
    hide *;
    var a := EmitExpr(st.c, w.c, n + 2);
    var b := EmitStmt(st.s, w.c, a.n);
    LoopFacts(w, st, n);
    WhileShape(w, pos, a, b, n);
    var q := pos + 6 + |a.code|;
    WhileBody(w, q, b.code, n + 2, n + 1, b.n + 1);
    StartSize(w, t0, q, a.n);
    StartFits(w, t0, q, a.n);
    SlotsBound(w, t0, q, a.n);
    TestTaken(t0, n + 2, 0, b.n + 1);
    TestStands(w, q, n + 2, b.n + 1, b.code);
    TestHead(n + 2, b.n + 1, a.n, w.top);
    var t1 := JumpInto(w, t0, q, a.n, [Jz(n + 2, 0, b.n + 1), ScopeBegin], st.s, w.c, a.n);
    TestSlots(w.c, env, s0, t0, t1, n, 0, Slots(w.c));
    WhileFragFits(a, b.code, n, b.n + 1, LastLabel(st.s, b.n), w.top);
    t := WhileBack(w, s0, s, t1, pos, a, b, LastLabel(st.s, b.n), n, env);
    ReachTrans(w.m, t0, t1, t);
  }

  lemma LoopFacts(w: Site, st: Stmt, n: nat)
    requires st.While? && FitsCtx(w.c, n) && EmitStmt(st, w.c, n).n <= w.top
    ensures var a := EmitExpr(st.c, w.c, n + 2);
      var b := EmitStmt(st.s, w.c, a.n);
      && EmitStmt(st, w.c, n).code == MakeWhile(a, b, n).code && n + 2 < a.n <= b.n < w.top && a.lvid <= w.top
      && Fits(a.code, n + 2, a.n, w.top) && Fits(b.code, a.n, LastLabel(st.s, b.n), w.top)
      && b.n <= LastLabel(st.s, b.n)
  {
    UnfoldBranch(st, w.c, n);
    hide EmitStmt;
    hide EmitExpr;
    hide Fits;
    var a := EmitExpr(st.c, w.c, n + 2);
    ExprGrows(st.c, w.c, n + 2);
    StmtGrows(st.s, w.c, a.n);
    LastLabelBound(st.s, EmitStmt(st.s, w.c, a.n).n);
    ExprFits(st.c, w.c, n + 2, w.top);
    StmtFits(st.s, w.c, a.n, w.top);
  }

  // A block with a handler which ends itself with a handler: the protected code never runs
  lemma ProtectedIsSkipped(w: Site, s: State, pos: nat, st: Stmt, n: nat, env: Env) returns (t: State)
    requires st.OnFail? && Start(w, s, pos, n) && Stands(w, pos, EmitStmt(st, w.c, n).code)
    requires EmitStmt(st, w.c, n).n <= w.top && Agree(w.c, env, s.act.regs) && EndsWithHandler(st.h)
    ensures Reaches(w.m, s, t)
    ensures StmtDone(w, s, t, pos + |EmitStmt(st, w.c, n).code|, n, Normal(env, s.trace))
  {
    hide *;
    StartFits(w, s, pos, n);
    var (a, b) := FailCode(st, w.c, n);
    FailFacts(w, st, n);
    var e := Entrance(st.atomid, n + 1);
    OnFailShape(w, pos, st.atomid, a, b, n);
    ScopeIdle(w, 0);
    var t1 := StartIdle(w, s, pos, n, [ScopeBegin], n);
    MovedKeeps(s, t1, n);
    AgreeSame(w.c, env, s, t1);
    NoSlots(w, s, t1, n);
    StartSize(w, t1, pos + 1, n);
    SlotsBound(w, s, pos, n);
    AnyTest(t1, a.n + 1);
    OverStands(w, pos + 1, st.atomid, a, n, b.n + 1);
    var head := [Jmp(a.n + 1), Label(n + 1)] + e;
    OverHead(st.atomid, a.n + 1, n, w.top);
    var c1 := InHandler(w.c, st.atomid, st.x, n);
    var t2 := JumpInto(w, t1, pos + 1, n, head, st.h, c1, FirstInHandler(st.atomid, n));
    ReachTrans(w.m, s, t1, t2);
    TestSlots(w.c, env, s, t1, t2, n, 0, Slots(w.c));
    t := HandlerEnds(w, s, t2, pos + 3 + |e| + |a.code|, st, a.n, n, env);
    ReachTrans(w.m, s, t2, t);
  }

  lemma FailFacts(w: Site, st: Stmt, n: nat)
    requires st.OnFail? && FitsCtx(w.c, n) && EmitStmt(st, w.c, n).n <= w.top
    ensures var (a, b) := FailCode(st, w.c, n);
      && EmitStmt(st, w.c, n).code == MakeOnFail(st.atomid, a, b, n).code
      && n + 1 <= FirstInHandler(st.atomid, n) <= a.n && a.n + 1 <= b.n <= w.top
      && Fits(b.code, a.n + 1, LastLabel(st.s, b.n), w.top)
      && FitsCtx(InHandler(w.c, st.atomid, st.x, n), FirstInHandler(st.atomid, n))
  {
    hide *;
    UnfoldBlock(st, w.c, n);
    HandlerCtx(st, w.c, n);
    var c1 := InHandler(w.c, st.atomid, st.x, n);
    var n1 := FirstInHandler(st.atomid, n);
    StmtGrows(st.h, c1, n1);
    var a := EmitStmt(st.h, c1, n1);
    var c2 := w.c.With(st.atomid, n + 1);
    StmtGrows(st.s, c2, a.n + 1);
    OnFailCode(st.atomid, a, EmitStmt(st.s, c2, a.n + 1), n);
    ProtectedCtx(st, w.c, n, a.n + 1);
    StmtFits(st.s, c2, a.n + 1, w.top);
  }

  lemma OverStands(w: Site, pos: nat, atomid: nat, a: EmittedStmt, n: nat, exit: nat)
    requires Stands(w, pos, OverSkip(atomid, a, n, exit))
    ensures Stands(w, pos, ([Jmp(a.n + 1), Label(n + 1)] + Entrance(atomid, n + 1)) + a.code)
  {
    var head := [Jmp(a.n + 1), Label(n + 1)] + Entrance(atomid, n + 1);
    assert OverSkip(atomid, a, n, exit) == (head + a.code) + [ScopeEnd, Jmp(exit), Label(a.n + 1)];
    hide OverSkip;
    hide Entrance;
    Split(w, pos, head + a.code, [ScopeEnd, Jmp(exit), Label(a.n + 1)]);
  }

  lemma OverHead(atomid: nat, over: nat, n: nat, top: nat)
    requires n + 2 <= top
    ensures Fits([Jmp(over), Label(n + 1)] + Entrance(atomid, n + 1), n, FirstInHandler(atomid, n), top)
  {
  }
}
