// The code emitted for an expression computes what the expression means: operators and calls with their scopes,
// minimal evaluation, if-expressions and function calls, the errors of which reach the handler they must. The value
// is left in a register above the counter of the fragment, the registers below are kept, and the events come in the
// same order.
module Expressions {
  import opened Isa
  import opened Jumps
  import opened Machine
  import opened Handlers
  import opened Source
  import opened Emitter
  import opened Layout
  import opened Untidy
  import opened Running
  import opened Dispatching
  import opened Correspondence
  import opened Branching

  // ---- one level of the meaning of an expression ----

  function NotOut(o: ExprOut): ExprOut {
    match o
    case Value(v, trace) => Value(if v == 0 then 1 else 0, trace)
    case _ => o
  }

  function BinOut(op: BinOp, a: u64, o: ExprOut): ExprOut {
    match o
    case Value(b, trace) =>
      (match Arith(op, a, b)
       case Some(v) => Value(v, trace)
       case None => ExprExit(Crashed(DivideByZero), trace))
    case _ => o
  }

  lemma UnfoldRun(p: seq<Func>, e: Expr, env: Env, h: Shield, trace: seq<Event>, fuel: nat)
    ensures e.Not? ==> RunExpr(p, e, env, h, trace, fuel) == NotOut(RunExpr(p, e.e, env, h, trace, fuel))
    ensures e.Bin? ==> var a := RunExpr(p, e.l, env, h, trace, fuel);
      RunExpr(p, e, env, h, trace, fuel)
      == if a.Value? then BinOut(e.op, a.v, RunExpr(p, e.r, env, h, a.trace, fuel)) else a
    ensures e.Both? ==> var a := RunExpr(p, e.l, env, h, trace, fuel);
      RunExpr(p, e, env, h, trace, fuel)
      == if a.ExprExit? then a else if e.lazy && a.v == 0 then Value(0, a.trace)
         else BinOut(BitAnd, a.v, RunExpr(p, e.r, env, h, a.trace, fuel))
    ensures e.Either? ==> var a := RunExpr(p, e.l, env, h, trace, fuel);
      RunExpr(p, e, env, h, trace, fuel)
      == if a.ExprExit? then a else if e.lazy && a.v != 0 then Value(1, a.trace)
         else BinOut(BitOr, a.v, RunExpr(p, e.r, env, h, a.trace, fuel))
    ensures e.Choice? ==> var a := RunExpr(p, e.c, env, h, trace, fuel);
      RunExpr(p, e, env, h, trace, fuel)
      == if a.ExprExit? then a else RunExpr(p, if a.v != 0 then e.t else e.e, env, h, a.trace, fuel)
  {
  }

  // ---- calls, with the dispatch of their errors ----

  // The scope of a call is opened
  lemma CallOpens(w: Site, s: State, pos: nat, n: nat, body: Code, op: Code, last: nat) returns (t: State)
    requires Start(w, s, pos, n) && Stands(w, pos, MakeCall(body, op, w.c.hs, n, last).code) && n + 2 <= w.top
    ensures Reaches(w.m, s, t) && Start(w, t, pos + 3, n + 2) && Moved(s, t, s.act.regs)
    ensures UpTo(w.Text(), pos + 3) <= UpTo(w.Text(), pos)
    ensures Stands(w, pos + 3, body)
    ensures Stands(w, pos + 3 + |body|, op + ([ScopeEnd] + Dispatch(w.c.hs, last + 1)))
    ensures |MakeCall(body, op, w.c.hs, n, last).code| == 3 + |body| + |op| + 1 + |Dispatch(w.c.hs, last + 1)|
  {
    hide Start;
    hide Dispatch;
    var rest := op + ([ScopeEnd] + Dispatch(w.c.hs, last + 1));
    Split(w, pos, CallHeader(n), body + rest);
    Split(w, pos + 3, body, rest);
    t := StartIdle(w, s, pos, n, CallHeader(n), n + 2);
  }

  lemma CloseCall(w: Site, s: State, pos: nat, last: nat) returns (t: State)
    requires Ordered(w.m) && Stands(w, pos, [ScopeEnd] + Dispatch(w.c.hs, last + 1))
    requires UpTo(w.Text(), pos) <= last
    requires Ready(w.m, s, w.f, pos, false) && |s.act.regs| > 0
    ensures Reaches(w.m, s, t) && Ready(w.m, t, w.f, pos + 1 + |Dispatch(w.c.hs, last + 1)|, false)
    ensures Moved(s, t, s.act.regs)
  {
    hide Dispatch;
    Split(w, pos, [ScopeEnd], Dispatch(w.c.hs, last + 1));
    Reads(w, pos, [ScopeEnd], 0);
    var t1 := IdleRun(w.m, s, w.f, pos, pos + 1, false);
    t := DispatchNothing(w.m, t1, w.f, pos + 1, last + 1, w.c.hs);
    ReachTrans(w.m, s, t1, t);
  }

  // An operation, the end of the scope of its operands, then no error to dispatch
  lemma Finish(w: Site, s: State, pos: nat, op: Instr, last: nat) returns (t: State)
    requires Ordered(w.m) && Stands(w, pos, [op] + ([ScopeEnd] + Dispatch(w.c.hs, last + 1)))
    requires UpTo(w.Text(), pos) <= last
    requires Ready(w.m, s, w.f, pos, false) && IsPlain(op) && MaxLvid(op) < |s.act.regs|
    requires Plain(w.m, op, s).params == []
    ensures Reaches(w.m, s, t)
    ensures var r := Plain(w.m, op, s);
      if r.status.Fault? then t == r
      else Ready(w.m, t, w.f, pos + 2 + |Dispatch(w.c.hs, last + 1)|, false) && Moved(r, t, r.act.regs)
  {
    hide Dispatch;
    Split(w, pos, [op], [ScopeEnd] + Dispatch(w.c.hs, last + 1));
    Reads(w, pos, [op], 0);
    PlainStep(w.m, s, w.f, pos, false);
    t := Step(w.m, s);
    if !t.status.Fault? {
      var t1 := CloseCall(w, t, pos + 1, last);
      ReachTrans(w.m, s, t, t1);
      t := t1;
    }
  }

  // The end of a call which computes 'out' from the operands
  lemma FinishExpr(w: Site, s0: State, s: State, pos: nat, op: Instr, n: nat, last: nat,
                   out: ExprOut) returns (t: State)
    requires Ordered(w.m) && Stands(w, pos, [op] + ([ScopeEnd] + Dispatch(w.c.hs, last + 1)))
    requires UpTo(w.Text(), pos) <= last
    requires Ready(w.m, s, w.f, pos, false) && IsPlain(op) && MaxLvid(op) < |s.act.regs| && n + 2 < |s.act.regs|
    requires Plain(w.m, op, s).params == [] && Keeps(s0, s, n, {})
    requires var r := Plain(w.m, op, s);
      && r.trace == out.trace
      && if r.status.Fault? then out.ExprExit? && out.exit == Crashed(r.status.error)
         else out.Value? && r.act.regs[n + 2] == out.v && Keeps(s, r, n, {})
    ensures Reaches(w.m, s, t)
    ensures ExprDone(w, s0, t, pos + 2 + |Dispatch(w.c.hs, last + 1)|, n + 2, n, out)
  {
    hide Dispatch;
    t := Finish(w, s, pos, op, last);
  }

  lemma NotFinish(w: Site, s0: State, s: State, pos: nat, lvid: nat, n: nat, last: nat, out: ExprOut) returns (t: State)
    requires Start(w, s, pos, last)
    requires Stands(w, pos, [Negation(n + 2, lvid)] + ([ScopeEnd] + Dispatch(w.c.hs, last + 1)))
    requires UpTo(w.Text(), pos) <= last && n + 2 <= w.top && Keeps(s0, s, n, {})
    requires out.Value? && Holds(s, lvid, out.v) && s.trace == out.trace
    ensures Reaches(w.m, s, t)
    ensures ExprDone(w, s0, t, pos + 2 + |Dispatch(w.c.hs, last + 1)|, n + 2, n, NotOut(out))
  {
    hide Dispatch;
    hide Stands;
    t := FinishExpr(w, s0, s, pos, Negation(n + 2, lvid), n, last, NotOut(out));
  }

  lemma BinFinish(w: Site, s0: State, s: State, pos: nat, op: BinOp, a: u64, lhs: nat, rhs: nat, n: nat, last: nat,
                  out: ExprOut) returns (t: State)
    requires Start(w, s, pos, last)
    requires Stands(w, pos, [Binary(op, n + 2, lhs, rhs)] + ([ScopeEnd] + Dispatch(w.c.hs, last + 1)))
    requires UpTo(w.Text(), pos) <= last && n + 2 <= w.top && Keeps(s0, s, n, {})
    requires out.Value? && Holds(s, lhs, a) && Holds(s, rhs, out.v) && s.trace == out.trace
    ensures Reaches(w.m, s, t)
    ensures ExprDone(w, s0, t, pos + 2 + |Dispatch(w.c.hs, last + 1)|, n + 2, n, BinOut(op, a, out))
  {
    hide Dispatch;
    hide Stands;
    t := FinishExpr(w, s0, s, pos, Binary(op, n + 2, lhs, rhs), n, last, BinOut(op, a, out));
  }

  // ---- expressions ----

  lemma {:induction false} SimExpr(w: Site, s: State, pos: nat, e: Expr, n: nat, env: Env, fuel: nat) returns (t: State)
    requires ExprAt(w, s, pos, e, n, env)
    requires CallsBelow(w.p, w.m, fuel)
    ensures Reaches(w.m, s, t)
    ensures SlowExpr(w.m, s, RunExpr(DoesAll(w.p), e, env, ShieldOf(w.c.hs), s.trace, fuel), fuel)
    ensures ExprDone(w, s, t, pos + |EmitExpr(e, w.c, n).code|, EmitExpr(e, w.c, n).lvid, n,
                     RunExpr(DoesAll(w.p), e, env, ShieldOf(w.c.hs), s.trace, fuel))
    decreases e, 1
  {
    hide *;
    if e.Const? || e.Var? {
      t := SimLeaf(w, s, pos, e, n, env, fuel);
    } else if e.Not? {
      t := SimNot(w, s, pos, e, n, env, fuel);
    } else if e.Bin? {
      t := SimBin(w, s, pos, e, n, env, fuel);
    } else if e.Both? || e.Either? {
      t := SimShort(w, s, pos, e, n, env, fuel);
    } else if e.Choice? {
      t := SimChoice(w, s, pos, e, n, env, fuel);
    } else {
      t := SimApply(w, s, pos, e, n, env, fuel);
    }
  }

  lemma LeafStep(w: Site, s: State, pos: nat, n: nat, op: Instr, v: u64) returns (t: State)
    requires Start(w, s, pos, n) && Stands(w, pos, [Stackalloc(n + 1)] + [op]) && n + 1 <= w.top
    requires (op == StoreConst(n + 1, v)) || (op.Store? && op.lvid == n + 1 && Holds(s, op.source, v))
    ensures Reaches(w.m, s, t) && ExprDone(w, s, t, pos + 2, n + 1, n, Value(v, s.trace))
  {
    hide *;
    Split(w, pos, [Stackalloc(n + 1)], [op]);
    ScopeIdle(w, n + 1);
    StartSize(w, s, pos, n);
    var t1 := StartIdle(w, s, pos, n, [Stackalloc(n + 1)], n);
    StartSize(w, t1, pos + 1, n);
    t := LeafStored(w, s, t1, pos + 1, n, op, v);
    ReachTrans(w.m, s, t1, t);
  }

  lemma LeafStored(w: Site, s: State, t1: State, pos: nat, n: nat, op: Instr, v: u64) returns (t: State)
    requires Ready(w.m, t1, w.f, pos, false) && Moved(s, t1, s.act.regs) && Stands(w, pos, [op]) && n + 1 < |s.act.regs|
    requires (op == StoreConst(n + 1, v)) || (op.Store? && op.lvid == n + 1 && Holds(s, op.source, v))
    ensures Reaches(w.m, t1, t) && ExprDone(w, s, t, pos + 1, n + 1, n, Value(v, s.trace))
  {
    Reads(w, pos, [op], 0);
    PlainStep(w.m, t1, w.f, pos, false);
    t := Step(w.m, t1);
  }

  lemma LeafParts(w: Site, s: State, pos: nat, e: Expr, n: nat, env: Env, fuel: nat) returns (op: Instr, v: u64)
    requires e.Const? || e.Var?
    requires ExprAt(w, s, pos, e, n, env)
    ensures Start(w, s, pos, n) && Stands(w, pos, [Stackalloc(n + 1)] + [op]) && n + 1 <= w.top
    ensures EmitExpr(e, w.c, n).lvid == n + 1 && |EmitExpr(e, w.c, n).code| == 2
    ensures op == StoreConst(n + 1, v) || (op.Store? && op.lvid == n + 1 && Holds(s, op.source, v))
    ensures RunExpr(DoesAll(w.p), e, env, ShieldOf(w.c.hs), s.trace, fuel) == Value(v, s.trace)
  {
    op := if e.Const? then StoreConst(n + 1, e.k) else Store(n + 1, w.c.Slot(e.x));
    v := if e.Const? then e.k else Lookup(env, e.x);
    assert EmitExpr(e, w.c, n).code == [Stackalloc(n + 1)] + [op];
  }

  lemma SimLeaf(w: Site, s: State, pos: nat, e: Expr, n: nat, env: Env, fuel: nat) returns (t: State)
    requires e.Const? || e.Var?
    requires ExprAt(w, s, pos, e, n, env)
    ensures Reaches(w.m, s, t)
    ensures SlowExpr(w.m, s, RunExpr(DoesAll(w.p), e, env, ShieldOf(w.c.hs), s.trace, fuel), fuel)
    ensures ExprDone(w, s, t, pos + |EmitExpr(e, w.c, n).code|, EmitExpr(e, w.c, n).lvid, n,
                     RunExpr(DoesAll(w.p), e, env, ShieldOf(w.c.hs), s.trace, fuel))
  {
    hide *;
    var op, v := LeafParts(w, s, pos, e, n, env, fuel);
    t := LeafStep(w, s, pos, n, op, v);
    InTime(w.m, s, Value(v, s.trace), fuel);
  }

  lemma NotParts(w: Site, s: State, pos: nat, e: Expr, n: nat, env: Env, fuel: nat)
    requires e.Not?
    requires ExprAt(w, s, pos, e, n, env)
    ensures var r := EmitExpr(e.e, w.c, n + 2);
      && EmitExpr(e, w.c, n) == MakeCall(r.code, [Negation(n + 2, r.lvid)], w.c.hs, n, r.n)
      && EmitExpr(e, w.c, n).lvid == n + 2 && n + 2 <= r.n <= w.top
    ensures var out := RunExpr(DoesAll(w.p), e.e, env, ShieldOf(w.c.hs), s.trace, fuel);
      RunExpr(DoesAll(w.p), e, env, ShieldOf(w.c.hs), s.trace, fuel) == NotOut(out)
      && (if out.ExprExit? then NotOut(out) == out else NotOut(out).Value?)
    ensures GoodExpr(w.p, e.e, w.c.names.Keys)
    ensures Start(w, s, pos, n) && Stands(w, pos, EmitExpr(e, w.c, n).code) && Agree(w.c, env, s.act.regs)
  {
    UnfoldExpr(e, w.c, n);
    UnfoldRun(DoesAll(w.p), e, env, ShieldOf(w.c.hs), s.trace, fuel);
    ExprGrows(e.e, w.c, n + 2);
  }

  lemma SimNot(w: Site, s: State, pos: nat, e: Expr, n: nat, env: Env, fuel: nat) returns (t: State)
    requires e.Not?
    requires ExprAt(w, s, pos, e, n, env)
    requires CallsBelow(w.p, w.m, fuel)
    ensures Reaches(w.m, s, t)
    ensures SlowExpr(w.m, s, RunExpr(DoesAll(w.p), e, env, ShieldOf(w.c.hs), s.trace, fuel), fuel)
    ensures ExprDone(w, s, t, pos + |EmitExpr(e, w.c, n).code|, EmitExpr(e, w.c, n).lvid, n,
                     RunExpr(DoesAll(w.p), e, env, ShieldOf(w.c.hs), s.trace, fuel))
    decreases e, 0
  {
    hide *;
    NotParts(w, s, pos, e, n, env, fuel);
    var r := EmitExpr(e.e, w.c, n + 2);
    var out := RunExpr(DoesAll(w.p), e.e, env, ShieldOf(w.c.hs), s.trace, fuel);
    var t0 := CallOpens(w, s, pos, n, r.code, [Negation(n + 2, r.lvid)], r.n);
    MovedKeeps(s, t0, n);
    AgreeSame(w.c, env, s, t0);
    OperandAt(w, t0, pos + 3, e.e, n + 2, env);
    t := SimExpr(w, t0, pos + 3, e.e, n + 2, env, fuel);
    ReachTrans(w.m, s, t0, t);
    SlowAfter(w.m, s, t0, out, fuel);
    Operand(w, s, t0, t, pos + 3, e.e, n, n + 2, env, out);
    if out.Value? {
      var t2 := NotFinish(w, s, t, pos + 3 + |r.code|, r.lvid, n, r.n, out);
      ReachTrans(w.m, s, t, t2);
      InTime(w.m, s, NotOut(out), fuel);
      t := t2;
    }
  }

  lemma BinParts(w: Site, s: State, pos: nat, e: Expr, n: nat, env: Env, fuel: nat)
    requires e.Bin?
    requires ExprAt(w, s, pos, e, n, env)
    ensures var a := EmitExpr(e.l, w.c, n + 2);
      var b := EmitExpr(e.r, w.c, a.n);
      && EmitExpr(e, w.c, n) == MakeCall(a.code + b.code, [Binary(e.op, n + 2, a.lvid, b.lvid)], w.c.hs, n, b.n)
      && EmitExpr(e, w.c, n).lvid == n + 2 && n + 2 <= a.n <= b.n <= w.top
    ensures var out := RunExpr(DoesAll(w.p), e.l, env, ShieldOf(w.c.hs), s.trace, fuel);
      && RunExpr(DoesAll(w.p), e, env, ShieldOf(w.c.hs), s.trace, fuel)
         == (if out.Value? then BinOut(e.op, out.v, RunExpr(DoesAll(w.p), e.r, env, ShieldOf(w.c.hs), out.trace,
                                                            fuel)) else out)
    ensures GoodExpr(w.p, e.l, w.c.names.Keys) && GoodExpr(w.p, e.r, w.c.names.Keys)
    ensures Start(w, s, pos, n) && Stands(w, pos, EmitExpr(e, w.c, n).code) && Agree(w.c, env, s.act.regs)
  {
    UnfoldExpr(e, w.c, n);
    UnfoldRun(DoesAll(w.p), e, env, ShieldOf(w.c.hs), s.trace, fuel);
    ExprGrows(e.l, w.c, n + 2);
    ExprGrows(e.r, w.c, EmitExpr(e.l, w.c, n + 2).n);
  }

  lemma SimBin(w: Site, s: State, pos: nat, e: Expr, n: nat, env: Env, fuel: nat) returns (t: State)
    requires e.Bin?
    requires ExprAt(w, s, pos, e, n, env)
    requires CallsBelow(w.p, w.m, fuel)
    ensures Reaches(w.m, s, t)
    ensures SlowExpr(w.m, s, RunExpr(DoesAll(w.p), e, env, ShieldOf(w.c.hs), s.trace, fuel), fuel)
    ensures ExprDone(w, s, t, pos + |EmitExpr(e, w.c, n).code|, EmitExpr(e, w.c, n).lvid, n,
                     RunExpr(DoesAll(w.p), e, env, ShieldOf(w.c.hs), s.trace, fuel))
    decreases e, 0
  {
    hide *;
    BinParts(w, s, pos, e, n, env, fuel);
    var a := EmitExpr(e.l, w.c, n + 2);
    var b := EmitExpr(e.r, w.c, a.n);
    var out := RunExpr(DoesAll(w.p), e.l, env, ShieldOf(w.c.hs), s.trace, fuel);
    var t0 := CallOpens(w, s, pos, n, a.code + b.code, [Binary(e.op, n + 2, a.lvid, b.lvid)], b.n);
    MovedKeeps(s, t0, n);
    AgreeSame(w.c, env, s, t0);
    Split(w, pos + 3, a.code, b.code);
    OperandAt(w, t0, pos + 3, e.l, n + 2, env);
    t := SimExpr(w, t0, pos + 3, e.l, n + 2, env, fuel);
    ReachTrans(w.m, s, t0, t);
    SlowAfter(w.m, s, t0, out, fuel);
    Operand(w, s, t0, t, pos + 3, e.l, n, n + 2, env, out);
    if out.Value? {
      var t2 := BinSecond(w, s, t, pos + 3, a, e.op, e.r, n, env, fuel, out);
      SlowAfter(w.m, s, t, BinOut(e.op, out.v, RunExpr(DoesAll(w.p), e.r, env, ShieldOf(w.c.hs), out.trace, fuel)),
                fuel);
      ReachTrans(w.m, s, t, t2);
      t := t2;
    }
  }

  // The second operand, then the operation
  lemma BinSecond(w: Site, s: State, t0: State, pos: nat, a: Emitted, op: BinOp, e: Expr, n: nat, env: Env, fuel: nat,
                  out: ExprOut) returns (t: State)
    requires Start(w, t0, pos + |a.code|, a.n) && Agree(w.c, env, t0.act.regs) && Keeps(s, t0, n, {}) && n + 2 <= a.n
    requires a.lvid <= a.n && out.Value? && Holds(t0, a.lvid, out.v) && out.trace == t0.trace
    requires GoodExpr(w.p, e, w.c.names.Keys) && EmitExpr(e, w.c, a.n).n <= w.top && CallsBelow(w.p, w.m, fuel)
    requires var b := EmitExpr(e, w.c, a.n);
      && Stands(w, pos + |a.code|, b.code)
      && Stands(w, pos + |a.code + b.code|, [Binary(op, n + 2, a.lvid, b.lvid)]
                + ([ScopeEnd] + Dispatch(w.c.hs, b.n + 1)))
    requires 0 < a.lvid && a.n <= w.top
    ensures Reaches(w.m, t0, t)
    ensures SlowExpr(w.m, t0, BinOut(op, out.v, RunExpr(DoesAll(w.p), e, env, ShieldOf(w.c.hs), t0.trace, fuel)), fuel)
    ensures var b := EmitExpr(e, w.c, a.n);
      var out2 := RunExpr(DoesAll(w.p), e, env, ShieldOf(w.c.hs), t0.trace, fuel);
      ExprDone(w, s, t, pos + |a.code + b.code| + 2 + |Dispatch(w.c.hs, b.n + 1)|, n + 2, n, BinOut(op, out.v, out2))
    decreases e, 2
  {
    hide *;
    var b := EmitExpr(e, w.c, a.n);
    var out2 := RunExpr(DoesAll(w.p), e, env, ShieldOf(w.c.hs), t0.trace, fuel);
    OperandAt(w, t0, pos + |a.code|, e, a.n, env);
    t := SimExpr(w, t0, pos + |a.code|, e, a.n, env, fuel);
    Operand(w, s, t0, t, pos + |a.code|, e, n, a.n, env, out2);
    BinExits(op, out.v, out2);
    if out2.Value? {
      HoldsKept(t0, t, a.lvid, out.v, a.n);
      var t2 := BinFinish(w, s, t, pos + |a.code + b.code|, op, out.v, a.lvid, b.lvid, n, b.n, out2);
      ReachTrans(w.m, t0, t, t2);
      InTime(w.m, t0, BinOut(op, out.v, out2), fuel);
      t := t2;
    }
  }

  lemma BinExits(op: BinOp, a: u64, out: ExprOut)
    ensures out.ExprExit? ==> BinOut(op, a, out) == out
    ensures out.Value? && BinOut(op, a, out).ExprExit? ==> BinOut(op, a, out).exit.Crashed?
  {
  }

  lemma HoldsKept(s: State, t: State, lvid: nat, v: u64, n: nat)
    requires Holds(s, lvid, v) && Keeps(s, t, n, {}) && 0 < lvid <= n
    ensures Holds(t, lvid, v)
  {
  }

  // ---- short-circuit operators ----

  function Gate(both: bool, lvid: nat, result: nat, id: nat): (r: Instr)
    ensures !r.Label? && MaxLvid(r) == (if lvid < result then result else lvid) && IsJump(r) && r.target == id
  {
    if both then Jz(lvid, result, id) else Jnz(lvid, result, id)
  }

  // Before the operands are typed, nothing stands there
  function Gated(lazy: bool, both: bool, lvid: nat, result: nat, id: nat): (r: Instr)
    ensures !r.Label?
  {
    if lazy then Gate(both, lvid, result, id) else Nop
  }

  lemma GatedIs(lazy: bool, both: bool, lvid: nat, result: nat, id: nat)
    ensures Gated(lazy, both, lvid, result, id) == if lazy then Gate(both, lvid, result, id) else Nop
  {
  }

  function Skipped(r: Emitted, op: Instr, id: nat, gate: Instr): (code: Code)
    ensures |code| == |r.code| + 8 && code[0] == gate
  {
    [gate, Nop, ScopeBegin] + (r.code + ([op, ScopeEnd] + ([Label(id)] + [ScopeEnd, Stackalloc(id + 2)])))
  }

  function BothOp(both: bool, n: nat, l: Emitted, r: Emitted): (op: Instr)
    ensures !op.Label?
  {
    Binary(if both then BitAnd else BitOr, n + 2, l.lvid, r.lvid)
  }

  lemma ShortOpens(w: Site, s: State, pos: nat, n: nat, l: Emitted, r: Emitted, both: bool, lazy: bool)
    returns (t: State)
    requires Start(w, s, pos, n) && Stands(w, pos, EmitShortCircuit(l, r, n, both, lazy).code) && n + 3 <= w.top
    ensures Reaches(w.m, s, t) && Start(w, t, pos + 4, n + 3) && Moved(s, t, s.act.regs)
    ensures Stands(w, pos + 4, l.code)
    ensures var skip := Skipped(r, BothOp(both, n, l, r), r.n + 1, Gated(lazy, both, l.lvid, n + 2, r.n + 1));
      Stands(w, pos + 4 + |l.code|, [Stackalloc(r.n + 2)] + (skip + [Store(n + 3, n + 2)]))
  {
    hide Start;
    var head := [Stackalloc(n + 1), Stackalloc(n + 2), Stackalloc(n + 3), ScopeBegin];
    var gate := Gated(lazy, both, l.lvid, n + 2, r.n + 1);
    var skip := Skipped(r, BothOp(both, n, l, r), r.n + 1, gate);
    ShortShape(l, r, n, both, lazy);
    Split(w, pos, head, l.code + ([Stackalloc(r.n + 2)] + (skip + [Store(n + 3, n + 2)])));
    Split(w, pos + 4, l.code, [Stackalloc(r.n + 2)] + (skip + [Store(n + 3, n + 2)]));
    t := StartIdle(w, s, pos, n, head, n + 3);
  }

  lemma ShortShape(l: Emitted, r: Emitted, n: nat, both: bool, lazy: bool)
    ensures var skip := Skipped(r, BothOp(both, n, l, r), r.n + 1, Gated(lazy, both, l.lvid, n + 2, r.n + 1));
      && EmitShortCircuit(l, r, n, both, lazy).code
         == [Stackalloc(n + 1), Stackalloc(n + 2), Stackalloc(n + 3), ScopeBegin]
            + (l.code + ([Stackalloc(r.n + 2)] + (skip + [Store(n + 3, n + 2)])))
      && |EmitShortCircuit(l, r, n, both, lazy).code| == 4 + |l.code| + 1 + |skip| + 1
  {
    var gate := Gated(lazy, both, l.lvid, n + 2, r.n + 1);
    var op := BothOp(both, n, l, r);
    var tail := [op, ScopeEnd, Label(r.n + 1), ScopeEnd, Stackalloc(r.n + 3), Store(n + 3, n + 2)];
    assert Room(lazy, r.n + 2, if lazy then gate else Gate(both, l.lvid, n + 2, r.n + 1)) + (r.code + tail)
        == [Stackalloc(r.n + 2)] + (Skipped(r, op, r.n + 1, gate) + [Store(n + 3, n + 2)]);
  }

  // The result is copied
  lemma ShortResult(w: Site, s0: State, s: State, pos: nat, n: nat, v: u64) returns (t: State)
    requires Ready(w.m, s, w.f, pos, false) && Stands(w, pos, [Store(n + 3, n + 2)]) && n + 3 < |s.act.regs|
    requires Keeps(s0, s, n, {}) && Holds(s, n + 2, v)
    ensures Reaches(w.m, s, t) && ExprDone(w, s0, t, pos + 1, n + 3, n, Value(v, s.trace))
  {
    Reads(w, pos, [Store(n + 3, n + 2)], 0);
    PlainStep(w.m, s, w.f, pos, false);
    t := Step(w.m, s);
  }

  // The first operand decides
  lemma ShortSkip(w: Site, s0: State, s: State, pos: nat, n: nat, l: Emitted, r: Emitted, both: bool, a: u64)
    returns (t: State)
    requires Start(w, s, pos, l.n) && UpTo(w.Text(), pos) <= l.n && Keeps(s0, s, n, {})
    requires Holds(s, l.lvid, a) && n + 3 <= l.n && l.lvid <= l.n < r.n && r.n + 3 <= w.top && r.lvid <= r.n
    requires Fits(r.code, l.n, r.n, w.top) && (both <==> a == 0)
    requires var skip := Skipped(r, BothOp(both, n, l, r), r.n + 1, Gate(both, l.lvid, n + 2, r.n + 1));
      Stands(w, pos, [Stackalloc(r.n + 2)] + (skip + [Store(n + 3, n + 2)]))
    ensures Reaches(w.m, s, t)
    ensures var skip := Skipped(r, BothOp(both, n, l, r), r.n + 1, Gate(both, l.lvid, n + 2, r.n + 1));
      ExprDone(w, s0, t, pos + 1 + |skip| + 1, n + 3, n, Value(if both then 0 else 1, s.trace))
  {
    hide *;
    var id := r.n + 1;
    var gate := Gate(both, l.lvid, n + 2, id);
    var skip := Skipped(r, BothOp(both, n, l, r), id, gate);
    Split(w, pos, [Stackalloc(r.n + 2)], skip + [Store(n + 3, n + 2)]);
    Split(w, pos + 1, skip, [Store(n + 3, n + 2)]);
    GateIdle(w, r.n + 2);
    StartSize(w, s, pos, l.n);
    var t1 := StartIdle(w, s, pos, l.n, [Stackalloc(r.n + 2)], l.n);
    GateTaken(s, t1, l.lvid, a, both, n + 2, id);
    var first := SkippedLands(r, BothOp(both, n, l, r), id, gate, l.n, w.top);
    SkippedFits(l, r, n, both, w.top);
    StartSize(w, t1, pos + 1, l.n);
    var t2 := JumpAhead(w, t1, pos + 1, l.n, skip, first, id, id);
    ReachTrans(w.m, s, t1, t2);
    GateResult(s0, s, t1, t2, l.lvid, both, n, id);
    StartSize(w, t2, pos + 1 + |skip|, id);
    t := ShortResult(w, s0, t2, pos + 1 + |skip|, n, if both then 0 else 1);
    ReachTrans(w.m, s, t2, t);
  }

  lemma GateIdle(w: Site, n: nat)
    requires n <= w.top
    ensures Flat([Stackalloc(n)], w.top) && IsIdle(Stackalloc(n))
    ensures Flat([Nop, ScopeBegin], w.top) && IsIdle(Nop) && IsIdle(ScopeBegin)
  {
  }

  lemma StartSize(w: Site, s: State, pos: nat, n: nat)
    requires Start(w, s, pos, n)
    ensures w.top < |s.act.regs| && Ready(w.m, s, w.f, pos, false) && Ordered(w.m) && w.Setup()
  {
  }

  lemma GateTaken(s: State, t: State, lvid: nat, a: u64, both: bool, result: nat, id: nat)
    requires Holds(s, lvid, a) && Moved(s, t, s.act.regs) && result < |s.act.regs|
    ensures var gate := Gate(both, lvid, result, id);
      && MaxLvid(gate) < |t.act.regs|
      && (Taken(gate, t.act.regs) <==> (both <==> a == 0))
      && Holds(t, lvid, a)
  {
  }

  lemma GateResult(s0: State, s: State, t1: State, t2: State, lvid: nat, both: bool, n: nat, id: nat)
    requires Keeps(s0, s, n, {}) && Moved(s, t1, s.act.regs) && lvid < |s.act.regs| && n + 2 < |s.act.regs|
    requires var gate := Gate(both, lvid, n + 2, id);
      IsJump(gate) && MaxLvid(gate) < |t1.act.regs| && Moved(t1, t2, AfterJump(gate, t1.act.regs))
    ensures Keeps(s0, t2, n, {}) && Holds(t2, n + 2, if both then 0 else 1) && t2.trace == s.trace
  {
  }

  lemma SkippedLands(r: Emitted, op: Instr, id: nat, gate: Instr, lo: nat, top: nat) returns (first: nat)
    requires id > 0 && Fits(r.code, lo, id - 1, top) && !op.Label? && !gate.Label?
    ensures Lands(Skipped(r, op, id, gate), first, id) && 0 < first < |Skipped(r, op, id, gate)|
  {
    first := 3 + |r.code| + 2;
  }

  lemma SkippedFits(l: Emitted, r: Emitted, n: nat, both: bool, top: nat)
    requires Fits(r.code, l.n, r.n, top) && n + 3 <= l.n < r.n && l.lvid <= l.n && r.lvid <= r.n && r.n + 3 <= top
    ensures Fits(Skipped(r, BothOp(both, n, l, r), r.n + 1, Gate(both, l.lvid, n + 2, r.n + 1)), l.n, r.n + 1, top)
  {
    var gate := Gate(both, l.lvid, n + 2, r.n + 1);
    var op := BothOp(both, n, l, r);
    var tail := [op, ScopeEnd] + ([Label(r.n + 1)] + [ScopeEnd, Stackalloc(r.n + 3)]);
    assert Fits(tail, r.n, r.n + 1, top);
    assert Flat([gate, Nop, ScopeBegin], top);
    FlatFits([gate, Nop, ScopeBegin], l.n, top);
    hide Fits;
    Cat(r.code, tail, l.n, r.n, r.n, r.n + 1, top);
    Cat([gate, Nop, ScopeBegin], r.code + tail, l.n, l.n, l.n, r.n + 1, top);
  }

  // The first operand does not decide: the second one is evaluated
  lemma ShortThrough(w: Site, s: State, pos: nat, n: nat, l: Emitted, r: Emitted, both: bool, lazy: bool, a: u64)
    returns (t: State)
    requires Start(w, s, pos, l.n) && n + 3 <= l.n && l.lvid <= l.n && r.n + 3 <= w.top && l.n < r.n
    requires Holds(s, l.lvid, a) && !(lazy && (both <==> a == 0))
    requires var skip := Skipped(r, BothOp(both, n, l, r), r.n + 1, Gated(lazy, both, l.lvid, n + 2, r.n + 1));
      Stands(w, pos, [Stackalloc(r.n + 2)] + (skip + [Store(n + 3, n + 2)]))
    ensures Reaches(w.m, s, t) && Start(w, t, pos + 4, l.n) && Moved(s, t, s.act.regs)
    ensures Stands(w, pos + 4, r.code)
    ensures Stands(w, pos + 4 + |r.code|, ShortTail(BothOp(both, n, l, r), r.n + 1, n))
  {
    hide *;
    var gate := Gated(lazy, both, l.lvid, n + 2, r.n + 1);
    GatedIs(lazy, both, l.lvid, n + 2, r.n + 1);
    ShortSplit(w, pos, r, BothOp(both, n, l, r), r.n + 1, gate, n);
    GateIdle(w, r.n + 2);
    StartSize(w, s, pos, l.n);
    var t1 := StartIdle(w, s, pos, l.n, [Stackalloc(r.n + 2)], l.n);
    GateTaken(s, t1, l.lvid, a, both, n + 2, r.n + 1);
    var t2 := PassGate(w, t1, pos + 1, l.n, gate, lazy);
    ReachTrans(w.m, s, t1, t2);
    t := StartIdle(w, t2, pos + 2, l.n, [Nop, ScopeBegin], l.n);
    ReachTrans(w.m, s, t2, t);
    MovedTrans(s, t1, t2);
    MovedTrans(s, t2, t);
  }

  lemma PassGate(w: Site, s: State, pos: nat, n: nat, gate: Instr, lazy: bool) returns (t: State)
    requires Start(w, s, pos, n) && Stands(w, pos, [gate])
    requires if lazy then IsJump(gate) && MaxLvid(gate) <= w.top && !Taken(gate, s.act.regs) else gate == Nop
    ensures Reaches(w.m, s, t) && Start(w, t, pos + 1, n) && Moved(s, t, s.act.regs)
  {
    hide *;
    if lazy {
      t := JumpPassed(w, s, pos, n, gate);
    } else {
      NopIdle(w);
      StartSize(w, s, pos, n);
      t := StartIdle(w, s, pos, n, [Nop], n);
    }
  }

  lemma NopIdle(w: Site)
    ensures Flat([Nop], w.top) && IsIdle(Nop)
  {
  }

  lemma MovedTrans(s: State, t: State, u: State)
    requires Moved(s, t, s.act.regs) && Moved(t, u, t.act.regs)
    ensures Moved(s, u, s.act.regs)
  {
  }

  function ShortTail(op: Instr, id: nat, n: nat): Code {
    [op] + ([ScopeEnd, Label(id), ScopeEnd, Stackalloc(id + 2)] + [Store(n + 3, n + 2)])
  }

  lemma ShortSplit(w: Site, pos: nat, r: Emitted, op: Instr, id: nat, gate: Instr, n: nat)
    requires Stands(w, pos, [Stackalloc(id + 1)] + (Skipped(r, op, id, gate) + [Store(n + 3, n + 2)]))
    ensures Stands(w, pos, [Stackalloc(id + 1)]) && Stands(w, pos + 1, [gate]) && Stands(w, pos + 2, [Nop, ScopeBegin])
    ensures Stands(w, pos + 4, r.code) && Stands(w, pos + 4 + |r.code|, ShortTail(op, id, n))
  {
    assert Skipped(r, op, id, gate) + [Store(n + 3, n + 2)]
        == [gate] + ([Nop, ScopeBegin] + (r.code + ShortTail(op, id, n)));
    hide Skipped;
    hide ShortTail;
    hide Stands;
    Split(w, pos, [Stackalloc(id + 1)], [gate] + ([Nop, ScopeBegin] + (r.code + ShortTail(op, id, n))));
    Split(w, pos + 1, [gate], [Nop, ScopeBegin] + (r.code + ShortTail(op, id, n)));
    Split(w, pos + 2, [Nop, ScopeBegin], r.code + ShortTail(op, id, n));
    Split(w, pos + 4, r.code, ShortTail(op, id, n));
  }

  lemma ShortFinish(w: Site, s0: State, s: State, pos: nat, n: nat, l: Emitted, r: Emitted, both: bool, a: u64,
                    out: ExprOut) returns (t: State)
    requires Ready(w.m, s, w.f, pos, false) && Keeps(s0, s, n, {}) && w.top < |s.act.regs|
    requires Stands(w, pos, ShortTail(BothOp(both, n, l, r), r.n + 1, n)) && n + 3 <= r.n && r.n + 3 <= w.top
    requires out.Value? && Holds(s, l.lvid, a) && Holds(s, r.lvid, out.v) && s.trace == out.trace
    ensures Reaches(w.m, s, t)
    ensures ExprDone(w, s0, t, pos + 6, n + 3, n, BinOut(if both then BitAnd else BitOr, a, out))
  {
    hide *;
    var op := BothOp(both, n, l, r);
    var v := BinValue(if both then BitAnd else BitOr, a, out);
    TailSplit(w, pos, op, r.n + 1, n);
    var t1 := BothStep(w, s0, s, pos, n, l, r, both, a, out);
    var t2 := TailIdle(w, t1, pos + 1, r.n + 1);
    ReachTrans(w.m, s, t1, t2);
    MovedHolds(s0, t1, t2, n, v);
    t := ShortResult(w, s0, t2, pos + 5, n, v);
    ReachTrans(w.m, s, t2, t);
  }

  lemma MovedHolds(s0: State, s: State, t: State, n: nat, v: u64)
    requires Moved(s, t, s.act.regs) && Keeps(s0, s, n, {}) && Holds(s, n + 2, v)
    ensures Keeps(s0, t, n, {}) && Holds(t, n + 2, v) && t.trace == s.trace && |t.act.regs| == |s.act.regs|
  {
  }

  lemma BinValue(op: BinOp, a: u64, out: ExprOut) returns (v: u64)
    requires out.Value? && op != Div
    ensures Arith(op, a, out.v) == Some(v) && BinOut(op, a, out) == Value(v, out.trace)
  {
    v := Arith(op, a, out.v).value;
  }

  lemma TailSplit(w: Site, pos: nat, op: Instr, id: nat, n: nat)
    requires Stands(w, pos, ShortTail(op, id, n))
    ensures Stands(w, pos, [op]) && Stands(w, pos + 1, [ScopeEnd, Label(id), ScopeEnd, Stackalloc(id + 2)])
    ensures Stands(w, pos + 5, [Store(n + 3, n + 2)])
  {
    hide Stands;
    var rest := [ScopeEnd, Label(id), ScopeEnd, Stackalloc(id + 2)];
    Split(w, pos, [op], rest + [Store(n + 3, n + 2)]);
    Split(w, pos + 1, rest, [Store(n + 3, n + 2)]);
  }

  lemma BothStep(w: Site, s0: State, s: State, pos: nat, n: nat, l: Emitted, r: Emitted, both: bool, a: u64,
                 out: ExprOut) returns (t: State)
    requires Ready(w.m, s, w.f, pos, false) && Keeps(s0, s, n, {}) && n + 3 < |s.act.regs|
    requires Stands(w, pos, [BothOp(both, n, l, r)])
    requires out.Value? && Holds(s, l.lvid, a) && Holds(s, r.lvid, out.v) && s.trace == out.trace
    ensures Reaches(w.m, s, t) && Ready(w.m, t, w.f, pos + 1, false) && Keeps(s0, t, n, {}) && t.trace == s.trace
    ensures |t.act.regs| == |s.act.regs|
    ensures forall v :: Arith(if both then BitAnd else BitOr, a, out.v) == Some(v) ==> Holds(t, n + 2, v)
  {
    Reads(w, pos, [BothOp(both, n, l, r)], 0);
    PlainStep(w.m, s, w.f, pos, false);
    t := Step(w.m, s);
  }

  lemma TailIdle(w: Site, s: State, pos: nat, id: nat) returns (t: State)
    requires Ready(w.m, s, w.f, pos, false) && Stands(w, pos, [ScopeEnd, Label(id), ScopeEnd, Stackalloc(id + 2)])
    requires id + 2 < |s.act.regs|
    ensures Reaches(w.m, s, t) && Ready(w.m, t, w.f, pos + 4, false) && Moved(s, t, s.act.regs)
  {
    var frag := [ScopeEnd, Label(id), ScopeEnd, Stackalloc(id + 2)];
    assert Idle(w.m.funcs[w.f], pos, pos + 4, |s.act.regs|) by {
      Reads(w, pos, frag, 0);
      Reads(w, pos, frag, 1);
      Reads(w, pos, frag, 2);
      Reads(w, pos, frag, 3);
    }
    t := IdleRun(w.m, s, w.f, pos, pos + 4, false);
  }

  lemma ShortParts(w: Site, s: State, pos: nat, e: Expr, n: nat, env: Env, fuel: nat)
    requires e.Both? || e.Either?
    requires ExprAt(w, s, pos, e, n, env)
    ensures var a := EmitExpr(e.l, w.c, n + 3);
      var b := EmitExpr(e.r, w.c, a.n);
      && EmitExpr(e, w.c, n) == EmitShortCircuit(a, b, n, e.Both?, e.lazy)
      && EmitExpr(e, w.c, n).lvid == n + 3 && n + 3 <= a.n < b.n && b.n + 3 <= w.top && a.lvid <= a.n
      && b.lvid <= b.n && Fits(b.code, a.n, b.n, w.top)
      && |EmitExpr(e, w.c, n).code| == |a.code| + |b.code| + 14
    ensures var out := RunExpr(DoesAll(w.p), e.l, env, ShieldOf(w.c.hs), s.trace, fuel);
      && RunExpr(DoesAll(w.p), e, env, ShieldOf(w.c.hs), s.trace, fuel)
         == (if out.ExprExit? then out
             else if e.lazy && (e.Both? <==> out.v == 0) then Value(if e.Both? then 0 else 1, out.trace)
             else BinOut(if e.Both? then BitAnd else BitOr, out.v,
                         RunExpr(DoesAll(w.p), e.r, env, ShieldOf(w.c.hs), out.trace, fuel)))
    ensures GoodExpr(w.p, e.l, w.c.names.Keys) && GoodExpr(w.p, e.r, w.c.names.Keys)
    ensures Start(w, s, pos, n) && Stands(w, pos, EmitExpr(e, w.c, n).code) && Agree(w.c, env, s.act.regs)
  {
    UnfoldExpr(e, w.c, n);
    UnfoldRun(DoesAll(w.p), e, env, ShieldOf(w.c.hs), s.trace, fuel);
    hide EmitExpr;
    var a := EmitExpr(e.l, w.c, n + 3);
    ExprGrows(e.l, w.c, n + 3);
    ExprGrows(e.r, w.c, a.n);
    ExprFits(e.l, w.c, n + 3, w.top);
    ExprFits(e.r, w.c, a.n, w.top);
    hide Fits;
    hide GoodStmt;
    hide RunExpr;
  }

  lemma SimShort(w: Site, s: State, pos: nat, e: Expr, n: nat, env: Env, fuel: nat) returns (t: State)
    requires e.Both? || e.Either?
    requires ExprAt(w, s, pos, e, n, env)
    requires CallsBelow(w.p, w.m, fuel)
    ensures Reaches(w.m, s, t)
    ensures SlowExpr(w.m, s, RunExpr(DoesAll(w.p), e, env, ShieldOf(w.c.hs), s.trace, fuel), fuel)
    ensures ExprDone(w, s, t, pos + |EmitExpr(e, w.c, n).code|, EmitExpr(e, w.c, n).lvid, n,
                     RunExpr(DoesAll(w.p), e, env, ShieldOf(w.c.hs), s.trace, fuel))
    decreases e, 0
  {
    hide *;
    ShortParts(w, s, pos, e, n, env, fuel);
    var a := EmitExpr(e.l, w.c, n + 3);
    var b := EmitExpr(e.r, w.c, a.n);
    var out := RunExpr(DoesAll(w.p), e.l, env, ShieldOf(w.c.hs), s.trace, fuel);
    var t0 := ShortOpens(w, s, pos, n, a, b, e.Both?, e.lazy);
    GatedIs(e.lazy, e.Both?, a.lvid, n + 2, b.n + 1);
    MovedKeeps(s, t0, n);
    AgreeSame(w.c, env, s, t0);
    OperandAt(w, t0, pos + 4, e.l, n + 3, env);
    t := SimExpr(w, t0, pos + 4, e.l, n + 3, env, fuel);
    ReachTrans(w.m, s, t0, t);
    SlowAfter(w.m, s, t0, out, fuel);
    Operand(w, s, t0, t, pos + 4, e.l, n, n + 3, env, out);
    if out.Value? {
      var t2: State;
      if e.lazy && (e.Both? <==> out.v == 0) {
        t2 := ShortSkip(w, s, t, pos + 4 + |a.code|, n, a, b, e.Both?, out.v);
        InTime(w.m, t, Value(if e.Both? then 0 else 1, out.trace), fuel);
      } else {
        t2 := ShortSecond(w, s, t, pos + 4 + |a.code|, a, e.Both?, e.lazy, e.r, n, env, fuel, out);
      }
      SlowAfter(w.m, s, t, RunExpr(DoesAll(w.p), e, env, ShieldOf(w.c.hs), s.trace, fuel), fuel);
      ReachTrans(w.m, s, t, t2);
      t := t2;
    }
  }

  lemma ShortSecond(w: Site, s: State, t0: State, pos: nat, l: Emitted, both: bool, lazy: bool, e: Expr, n: nat,
                    env: Env, fuel: nat, out: ExprOut) returns (t: State)
    requires Start(w, t0, pos, l.n) && Agree(w.c, env, t0.act.regs) && Keeps(s, t0, n, {}) && n + 3 <= l.n
    requires 0 < l.lvid <= l.n && out.Value? && Holds(t0, l.lvid, out.v) && out.trace == t0.trace
    requires !(lazy && (both <==> out.v == 0))
    requires GoodExpr(w.p, e, w.c.names.Keys) && CallsBelow(w.p, w.m, fuel)
    requires var r := EmitExpr(e, w.c, l.n);
      && l.n < r.n && r.n + 3 <= w.top
      && Stands(w, pos, [Stackalloc(r.n + 2)]
                        + (Skipped(r, BothOp(both, n, l, r), r.n + 1, Gated(lazy, both, l.lvid, n + 2, r.n + 1))
                           + [Store(n + 3, n + 2)]))
    ensures Reaches(w.m, t0, t)
    ensures SlowExpr(w.m, t0, BinOut(if both then BitAnd else BitOr, out.v,
                                     RunExpr(DoesAll(w.p), e, env, ShieldOf(w.c.hs), t0.trace, fuel)), fuel)
    ensures ExprDone(w, s, t, pos + 10 + |EmitExpr(e, w.c, l.n).code|, n + 3, n,
                     BinOut(if both then BitAnd else BitOr, out.v,
                            RunExpr(DoesAll(w.p), e, env, ShieldOf(w.c.hs), t0.trace, fuel)))
    decreases e, 2
  {
    hide *;
    var r := EmitExpr(e, w.c, l.n);
    var out2 := RunExpr(DoesAll(w.p), e, env, ShieldOf(w.c.hs), t0.trace, fuel);
    var t1 := ShortThrough(w, t0, pos, n, l, r, both, lazy, out.v);
    MovedKeeps(t0, t1, l.n);
    KeepsOnce(s, t0, t1, n, l.n);
    HoldsKept(t0, t1, l.lvid, out.v, l.n);
    AgreeSame(w.c, env, t0, t1);
    OperandAt(w, t1, pos + 4, e, l.n, env);
    t := SimExpr(w, t1, pos + 4, e, l.n, env, fuel);
    ReachTrans(w.m, t0, t1, t);
    SlowAfter(w.m, t0, t1, out2, fuel);
    Operand(w, s, t1, t, pos + 4, e, n, l.n, env, out2);
    BinExits(if both then BitAnd else BitOr, out.v, out2);
    if out2.Value? {
      HoldsKept(t1, t, l.lvid, out.v, l.n);
      StartSize(w, t, pos + 4 + |r.code|, r.n);
      var t2 := ShortFinish(w, s, t, pos + 4 + |r.code|, n, l, r, both, out.v, out2);
      ReachTrans(w.m, t0, t, t2);
      InTime(w.m, t0, BinOut(if both then BitAnd else BitOr, out.v, out2), fuel);
      t := t2;
    }
  }

  lemma KeepsOnce(s: State, t: State, u: State, n: nat, n': nat)
    requires Keeps(s, t, n, {}) && Keeps(t, u, n', {}) && n <= n'
    ensures Keeps(s, u, n, {})
  {
  }

  // ---- conditions ----

  // A copy from one register to another
  lemma CopyStep(w: Site, s: State, pos: nat, n: nat, lvid: nat, source: nat, v: u64) returns (t: State)
    requires Start(w, s, pos, n) && Stands(w, pos, [Store(lvid, source)]) && Holds(s, source, v) && lvid <= w.top
    ensures Reaches(w.m, s, t) && Start(w, t, pos + 1, n) && UpTo(w.Text(), pos + 1) <= UpTo(w.Text(), pos)
    ensures Holds(t, lvid, v) && Moved(s, t, s.act.regs[lvid := v])
  {
    Reads(w, pos, [Store(lvid, source)], 0);
    PlainStep(w.m, s, w.f, pos, false);
    t := Step(w.m, s);
    UpToFrag(w.m.funcs[w.f], pos, [Store(lvid, source)], 1, 0);
    assert Flat([Store(lvid, source)], Max(w.top, source));
    FlatFits([Store(lvid, source)], n, Max(w.top, source));
    SceneMoves(w.m, w.f, pos, [Store(lvid, source)], n, n, n, Max(w.top, source), w.c.hs, w.hp);
  }

  lemma CopyKeeps(c: Ctx, env: Env, s0: State, s: State, t: State, n: nat, lvid: nat, v: u64)
    requires n < lvid < |s.act.regs| && Moved(s, t, s.act.regs[lvid := v]) && Keeps(s0, s, n, {})
    requires Agree(c, env, s.act.regs) && forall x :: x in c.names ==> c.names[x] <= n
    ensures Keeps(s0, t, n, {}) && Agree(c, env, t.act.regs) && t.trace == s.trace
  {
  }

  lemma SlotsBound(w: Site, s: State, pos: nat, n: nat)
    requires Start(w, s, pos, n)
    ensures forall x :: x in w.c.names ==> 0 < w.c.names[x] <= n
  {
  }

  lemma ConditionShape(w: Site, pos: nat, a: Emitted, cond: nat)
    requires Stands(w, pos, Condition(a, cond))
    ensures Stands(w, pos, [Stackalloc(cond), ScopeBegin]) && Stands(w, pos + 2, a.code)
    ensures Stands(w, pos + 2 + |a.code|, [Store(cond, a.lvid)]) && Stands(w, pos + 3 + |a.code|, [ScopeEnd])
  {
    hide Stands;
    Split(w, pos, [Stackalloc(cond), ScopeBegin], a.code + [Store(cond, a.lvid), ScopeEnd]);
    Split(w, pos + 2, a.code, [Store(cond, a.lvid), ScopeEnd]);
    assert [Store(cond, a.lvid), ScopeEnd] == [Store(cond, a.lvid)] + [ScopeEnd];
    Split(w, pos + 2 + |a.code|, [Store(cond, a.lvid)], [ScopeEnd]);
  }

  lemma ScopeIdle(w: Site, n: nat)
    requires n <= w.top
    ensures Flat([ScopeBegin], w.top) && Flat([ScopeEnd], w.top) && IsIdle(ScopeBegin) && IsIdle(ScopeEnd)
    ensures Flat([Stackalloc(n), ScopeBegin], w.top) && IsIdle(Stackalloc(n))
    ensures Flat([Stackalloc(n)], w.top)
  {
  }

  // A condition has been evaluated into the register 'cond', or it has stopped there
  ghost predicate ConditionDone(w: Site, s: State, t: State, pos: nat, n: nat, n': nat, cond: nat, env: Env,
                                out: ExprOut) {
    match out
    case Value(v, trace) =>
      && Start(w, t, pos, n') && UpTo(w.Text(), pos) <= n' && Keeps(s, t, n, {}) && Agree(w.c, env, t.act.regs)
      && Holds(t, cond, v) && t.trace == trace
    case ExprExit(_, _) => forall pos', lvid :: ExprDone(w, s, t, pos', lvid, n, out)
  }

  lemma ConditionMeans(w: Site, s: State, t: State, pos: nat, n: nat, n': nat, cond: nat, env: Env, out: ExprOut)
    requires (out.Value? && Start(w, t, pos, n') && UpTo(w.Text(), pos) <= n' && Keeps(s, t, n, {})
              && Agree(w.c, env, t.act.regs) && Holds(t, cond, out.v) && t.trace == out.trace)
          || (out.ExprExit? && forall pos', lvid :: ExprDone(w, s, t, pos', lvid, n, out))
    ensures ConditionDone(w, s, t, pos, n, n', cond, env, out)
  {
  }

  lemma SimCondition(w: Site, s: State, pos: nat, e: Expr, n: nat, cond: nat, env: Env, fuel: nat) returns (t: State)
    requires Start(w, s, pos, n) && n < cond <= w.top && Stands(w, pos, Condition(EmitExpr(e, w.c, cond), cond))
    requires EmitExpr(e, w.c, cond).n <= w.top && GoodExpr(w.p, e, w.c.names.Keys) && Agree(w.c, env, s.act.regs)
    requires CallsBelow(w.p, w.m, fuel)
    ensures Reaches(w.m, s, t)
    ensures SlowExpr(w.m, s, RunExpr(DoesAll(w.p), e, env, ShieldOf(w.c.hs), s.trace, fuel), fuel)
    ensures var a := EmitExpr(e, w.c, cond);
      ConditionDone(w, s, t, pos + |a.code| + 4, n, a.n, cond, env,
                    RunExpr(DoesAll(w.p), e, env, ShieldOf(w.c.hs), s.trace, fuel))
    decreases e, 2
  {
    hide *;
    var a := EmitExpr(e, w.c, cond);
    var out := RunExpr(DoesAll(w.p), e, env, ShieldOf(w.c.hs), s.trace, fuel);
    ConditionShape(w, pos, a, cond);
    ScopeIdle(w, cond);
    var t0 := StartIdle(w, s, pos, n, [Stackalloc(cond), ScopeBegin], cond);
    MovedKeeps(s, t0, n);
    AgreeSame(w.c, env, s, t0);
    OperandAt(w, t0, pos + 2, e, cond, env);
    t := SimExpr(w, t0, pos + 2, e, cond, env, fuel);
    ReachTrans(w.m, s, t0, t);
    SlowAfter(w.m, s, t0, out, fuel);
    Operand(w, s, t0, t, pos + 2, e, n, cond, env, out);
    if out.Value? {
      var t1 := CopyStep(w, t, pos + 2 + |a.code|, a.n, cond, a.lvid, out.v);
      ReachTrans(w.m, s, t, t1);
      SlotsBound(w, s, pos, n);
      StartSize(w, t, pos + 2 + |a.code|, a.n);
      CopyKeeps(w.c, env, s, t, t1, n, cond, out.v);
      var t2 := StartIdle(w, t1, pos + 3 + |a.code|, a.n, [ScopeEnd], a.n);
      ReachTrans(w.m, s, t1, t2);
      CloseKeeps(w.c, env, s, t1, t2, n, cond, out.v);
      t := t2;
    }
    ConditionMeans(w, s, t, pos + |a.code| + 4, n, a.n, cond, env, out);
  }

  lemma CloseKeeps(c: Ctx, env: Env, s0: State, s: State, t: State, n: nat, lvid: nat, v: u64)
    requires Moved(s, t, s.act.regs) && Keeps(s0, s, n, {}) && Agree(c, env, s.act.regs) && Holds(s, lvid, v)
    ensures Keeps(s0, t, n, {}) && Agree(c, env, t.act.regs) && Holds(t, lvid, v) && t.trace == s.trace
  {
  }

  // ---- if-expressions ----

  function ThenSkip(b: Emitted, n: nat, labelElse: nat, labelEnd: nat): (code: Code)
    ensures |code| == |b.code| + 7 && code[0] == Jz(n + 2, 0, labelElse)
  {
    [Jz(n + 2, 0, labelElse), ScopeBegin]
    + (b.code + ([Store(n + 1, b.lvid), ScopeEnd, Jmp(labelEnd)] + ([Label(labelElse)] + [ScopeBegin])))
  }

  function ElseSkip(d: Emitted, n: nat, labelElse: nat, labelEnd: nat): (code: Code)
    ensures |code| == |d.code| + 6 && code[0] == Jmp(labelEnd)
  {
    [Jmp(labelEnd), Label(labelElse), ScopeBegin] + (d.code + [Store(n + 1, d.lvid), ScopeEnd, Label(labelEnd)])
  }

  lemma ChoiceOpens(w: Site, pos: nat, a: Emitted, b: Emitted, d: Emitted, n: nat)
    requires Stands(w, pos, MakeChoice(a, b, d, n).code)
    ensures Stands(w, pos, [Stackalloc(n + 1)]) && Stands(w, pos + 1, Condition(a, n + 2))
    ensures Stands(w, pos + 5 + |a.code|, ThenSkip(b, n, b.n + 1, d.n + 1)
                                          + (d.code + [Store(n + 1, d.lvid), ScopeEnd, Label(d.n + 1)]))
    ensures |MakeChoice(a, b, d, n).code| == |a.code| + |b.code| + |d.code| + 15
  {
    var z := d.code + [Store(n + 1, d.lvid), ScopeEnd, Label(d.n + 1)];
    var rest := ThenSkip(b, n, b.n + 1, d.n + 1) + z;
    assert MakeChoice(a, b, d, n).code == [Stackalloc(n + 1)] + (Condition(a, n + 2) + rest) by {
      var m := [Store(n + 1, b.lvid), ScopeEnd, Jmp(d.n + 1)];
      assert [Store(n + 1, b.lvid), ScopeEnd, Jmp(d.n + 1), Label(b.n + 1), ScopeBegin]
          == m + ([Label(b.n + 1)] + [ScopeBegin]);
      assert [Jz(n + 2, 0, b.n + 1), ScopeBegin] + (b.code + (m + ([Label(b.n + 1)] + [ScopeBegin]) + z)) == rest;
    }
    hide ThenSkip;
    Split(w, pos, [Stackalloc(n + 1)], Condition(a, n + 2) + rest);
    Split(w, pos + 1, Condition(a, n + 2), rest);
  }

  lemma ThenShape(w: Site, pos: nat, b: Emitted, d: Emitted, n: nat)
    requires Stands(w, pos, ThenSkip(b, n, b.n + 1, d.n + 1)
                            + (d.code + [Store(n + 1, d.lvid), ScopeEnd, Label(d.n + 1)]))
    ensures Stands(w, pos, [Jz(n + 2, 0, b.n + 1)]) && Stands(w, pos + 1, [ScopeBegin]) && Stands(w, pos + 2, b.code)
    ensures Stands(w, pos + 2 + |b.code|, [Store(n + 1, b.lvid)]) && Stands(w, pos + 3 + |b.code|, [ScopeEnd])
    ensures Stands(w, pos + 4 + |b.code|, ElseSkip(d, n, b.n + 1, d.n + 1))
  {
    var z := d.code + [Store(n + 1, d.lvid), ScopeEnd, Label(d.n + 1)];
    var rest := [Store(n + 1, b.lvid)] + ([ScopeEnd] + ElseSkip(d, n, b.n + 1, d.n + 1));
    assert ThenSkip(b, n, b.n + 1, d.n + 1) + z == [Jz(n + 2, 0, b.n + 1)] + ([ScopeBegin] + (b.code + rest));
    hide Stands;
    hide ThenSkip;
    hide ElseSkip;
    Split(w, pos, [Jz(n + 2, 0, b.n + 1)], [ScopeBegin] + (b.code + rest));
    Split(w, pos + 1, [ScopeBegin], b.code + rest);
    Split(w, pos + 2, b.code, rest);
    Split(w, pos + 2 + |b.code|, [Store(n + 1, b.lvid)], [ScopeEnd] + ElseSkip(d, n, b.n + 1, d.n + 1));
    Split(w, pos + 3 + |b.code|, [ScopeEnd], ElseSkip(d, n, b.n + 1, d.n + 1));
  }

  lemma ElseShape(w: Site, pos: nat, b: Emitted, d: Emitted, n: nat)
    requires Stands(w, pos, ThenSkip(b, n, b.n + 1, d.n + 1)
                            + (d.code + [Store(n + 1, d.lvid), ScopeEnd, Label(d.n + 1)]))
    ensures Stands(w, pos, ThenSkip(b, n, b.n + 1, d.n + 1)) && Stands(w, pos + 7 + |b.code|, d.code)
    ensures Stands(w, pos + 7 + |b.code| + |d.code|, [Store(n + 1, d.lvid)])
    ensures Stands(w, pos + 8 + |b.code| + |d.code|, [ScopeEnd, Label(d.n + 1)])
  {
    hide Stands;
    hide ThenSkip;
    var z := [Store(n + 1, d.lvid), ScopeEnd, Label(d.n + 1)];
    Split(w, pos, ThenSkip(b, n, b.n + 1, d.n + 1), d.code + z);
    Split(w, pos + 7 + |b.code|, d.code, z);
    assert z == [Store(n + 1, d.lvid)] + [ScopeEnd, Label(d.n + 1)];
    Split(w, pos + 7 + |b.code| + |d.code|, [Store(n + 1, d.lvid)], [ScopeEnd, Label(d.n + 1)]);
  }

  lemma ThenSkipLands(b: Emitted, n: nat, labelEnd: nat, lo: nat, top: nat) returns (first: nat)
    requires Fits(b.code, lo, b.n, top)
    ensures Lands(ThenSkip(b, n, b.n + 1, labelEnd), first, b.n + 1) && 0 < first < |b.code| + 7
  {
    first := 5 + |b.code|;
    hide OrderedLabels;
  }

  lemma ThenSkipFits(b: Emitted, n: nat, labelEnd: nat, lo: nat, top: nat)
    requires Fits(b.code, lo, b.n, top) && b.lvid <= top && n + 2 <= top && lo <= b.n
    ensures Fits(ThenSkip(b, n, b.n + 1, labelEnd), lo, b.n + 1, top)
  {
    var tail := [Store(n + 1, b.lvid), ScopeEnd, Jmp(labelEnd)] + ([Label(b.n + 1)] + [ScopeBegin]);
    assert Fits(tail, b.n, b.n + 1, top);
    assert Flat([Jz(n + 2, 0, b.n + 1), ScopeBegin], top);
    hide Fits;
    FlatFits([Jz(n + 2, 0, b.n + 1), ScopeBegin], lo, top);
    Cat(b.code, tail, lo, b.n, b.n, b.n + 1, top);
    Cat([Jz(n + 2, 0, b.n + 1), ScopeBegin], b.code + tail, lo, lo, lo, b.n + 1, top);
  }

  lemma ElseSkipLands(d: Emitted, n: nat, labelElse: nat, top: nat) returns (first: nat)
    requires Fits(d.code, labelElse, d.n, top) && labelElse <= d.n
    ensures Lands(ElseSkip(d, n, labelElse, d.n + 1), first, d.n + 1) && 0 < first < |d.code| + 6
  {
    first := 5 + |d.code|;
    hide OrderedLabels;
  }

  lemma ElseSkipFits(d: Emitted, n: nat, labelElse: nat, lo: nat, top: nat)
    requires Fits(d.code, labelElse, d.n, top) && d.lvid <= top && n + 1 <= top && lo < labelElse <= d.n
    ensures Fits(ElseSkip(d, n, labelElse, d.n + 1), lo, d.n + 1, top)
  {
    var tail := [Store(n + 1, d.lvid), ScopeEnd, Label(d.n + 1)];
    assert Fits(tail, d.n, d.n + 1, top);
    assert Fits([Jmp(d.n + 1), Label(labelElse), ScopeBegin], lo, labelElse, top);
    hide Fits;
    Cat(d.code, tail, labelElse, d.n, d.n, d.n + 1, top);
    Cat([Jmp(d.n + 1), Label(labelElse), ScopeBegin], d.code + tail, lo, labelElse, labelElse, d.n + 1, top);
  }

  // A test of the register 'cond'
  lemma TestTaken(s: State, cond: nat, v: u64, id: nat)
    requires Holds(s, cond, v) && |s.act.regs| > 0
    ensures var jz := Jz(cond, 0, id);
      && IsJump(jz) && MaxLvid(jz) == cond && (Taken(jz, s.act.regs) <==> v == 0)
      && AfterJump(jz, s.act.regs) == s.act.regs[0 := 0]
    ensures var jnz := Jnz(cond, 0, id);
      && IsJump(jnz) && MaxLvid(jnz) == cond && (Taken(jnz, s.act.regs) <==> v != 0)
      && AfterJump(jnz, s.act.regs) == s.act.regs[0 := 1]
    ensures var jmp := Jmp(id);
      IsJump(jmp) && MaxLvid(jmp) == 0 && Taken(jmp, s.act.regs) && AfterJump(jmp, s.act.regs) == s.act.regs
  {
  }

  // The first register is not the one of a name
  lemma TestKeeps(c: Ctx, env: Env, s0: State, s: State, t: State, n: nat, v: u64)
    requires |s.act.regs| > 0 && (Moved(s, t, s.act.regs[0 := v]) || Moved(s, t, s.act.regs)) && Keeps(s0, s, n, {})
    requires Agree(c, env, s.act.regs) && forall x :: x in c.names ==> c.names[x] > 0
    ensures Keeps(s0, t, n, {}) && Agree(c, env, t.act.regs) && t.trace == s.trace
  {
  }

  lemma ValueDone(w: Site, s0: State, t: State, pos: nat, k: nat, lvid: nat, n: nat, v: u64)
    requires Start(w, t, pos, k) && Keeps(s0, t, n, {}) && Holds(t, lvid, v)
    ensures ExprDone(w, s0, t, pos, lvid, n, Value(v, t.trace))
  {
  }

  lemma ChoiceThen(w: Site, s0: State, s: State, pos: nat, e: Expr, k: nat, d: Emitted, n: nat, env: Env, fuel: nat,
                   v: u64)
    returns (t: State)
    requires Start(w, s, pos, k) && UpTo(w.Text(), pos) <= k && Keeps(s0, s, n, {}) && Agree(w.c, env, s.act.regs)
    requires n + 2 <= k && v != 0 && Holds(s, n + 2, v) && GoodExpr(w.p, e, w.c.names.Keys)
    requires var b := EmitExpr(e, w.c, k);
      && Stands(w, pos, ThenSkip(b, n, b.n + 1, d.n + 1) + (d.code + [Store(n + 1, d.lvid), ScopeEnd, Label(d.n + 1)]))
      && Fits(d.code, b.n + 1, d.n, w.top) && k < b.n < d.n < w.top && d.lvid <= d.n
    requires forall x :: x in w.c.names ==> w.c.names[x] <= n
    requires CallsBelow(w.p, w.m, fuel)
    ensures Reaches(w.m, s, t)
    ensures SlowExpr(w.m, s, RunExpr(DoesAll(w.p), e, env, ShieldOf(w.c.hs), s.trace, fuel), fuel)
    ensures ExprDone(w, s0, t, pos + |EmitExpr(e, w.c, k).code| + |d.code| + 10, n + 1, n,
                     RunExpr(DoesAll(w.p), e, env, ShieldOf(w.c.hs), s.trace, fuel))
    decreases e, 2
  {
    hide *;
    var b := EmitExpr(e, w.c, k);
    var out := RunExpr(DoesAll(w.p), e, env, ShieldOf(w.c.hs), s.trace, fuel);
    ThenShape(w, pos, b, d, n);
    StartSize(w, s, pos, k);
    SlotsBound(w, s, pos, k);
    TestTaken(s, n + 2, v, b.n + 1);
    ScopeIdle(w, 0);
    var t1 := JumpPassed(w, s, pos, k, Jz(n + 2, 0, b.n + 1));
    var t2 := StartIdle(w, t1, pos + 1, k, [ScopeBegin], k);
    ReachTrans(w.m, s, t1, t2);
    MovedTrans(s, t1, t2);
    TestKeeps(w.c, env, s0, s, t2, n, 0);
    OperandAt(w, t2, pos + 2, e, k, env);
    t := SimExpr(w, t2, pos + 2, e, k, env, fuel);
    ReachTrans(w.m, s, t2, t);
    SlowAfter(w.m, s, t2, out, fuel);
    Operand(w, s0, t2, t, pos + 2, e, n, k, env, out);
    if out.Value? {
      var t3 := ThenCloses(w, s0, t, pos + 2 + |b.code|, b, d, n, env, out.v);
      ReachTrans(w.m, s, t, t3);
      t := t3;
    }
  }

  lemma BranchValue(w: Site, s0: State, s: State, pos: nat, k: nat, n: nat, lvid: nat, env: Env,
                    v: u64) returns (t: State)
    requires Start(w, s, pos, k) && Stands(w, pos, [Store(n + 1, lvid)]) && Holds(s, lvid, v) && n + 1 <= w.top
    requires Keeps(s0, s, n, {}) && Agree(w.c, env, s.act.regs) && forall x :: x in w.c.names ==> w.c.names[x] <= n
    ensures Reaches(w.m, s, t) && Start(w, t, pos + 1, k) && UpTo(w.Text(), pos + 1) <= UpTo(w.Text(), pos)
    ensures Keeps(s0, t, n, {}) && Agree(w.c, env, t.act.regs) && Holds(t, n + 1, v) && t.trace == s.trace
  {
    hide *;
    StartSize(w, s, pos, k);
    t := CopyStep(w, s, pos, k, n + 1, lvid, v);
    CopyKeeps(w.c, env, s0, s, t, n, n + 1, v);
  }

  lemma ThenCloses(w: Site, s0: State, s: State, pos: nat, b: Emitted, d: Emitted, n: nat, env: Env, v: u64)
    returns (t: State)
    requires Start(w, s, pos, b.n) && UpTo(w.Text(), pos) <= b.n && Keeps(s0, s, n, {}) && Agree(w.c, env, s.act.regs)
    requires Stands(w, pos, [Store(n + 1, b.lvid)]) && Stands(w, pos + 1, [ScopeEnd])
    requires Stands(w, pos + 2, ElseSkip(d, n, b.n + 1, d.n + 1))
    requires Fits(d.code, b.n + 1, d.n, w.top) && b.n < d.n < w.top && d.lvid <= d.n && n + 1 <= w.top
    requires Holds(s, b.lvid, v) && forall x :: x in w.c.names ==> w.c.names[x] <= n
    ensures Reaches(w.m, s, t) && ExprDone(w, s0, t, pos + 8 + |d.code|, n + 1, n, Value(v, s.trace))
  {
    hide *;
    ScopeIdle(w, 0);
    var t1 := BranchValue(w, s0, s, pos, b.n, n, b.lvid, env, v);
    var t2 := StartIdle(w, t1, pos + 1, b.n, [ScopeEnd], b.n);
    ReachTrans(w.m, s, t1, t2);
    CloseKeeps(w.c, env, s0, t1, t2, n, n + 1, v);
    StartSize(w, t2, pos + 2, b.n);
    TestTaken(t2, n + 1, v, d.n + 1);
    var first := ElseSkipLands(d, n, b.n + 1, w.top);
    ElseSkipFits(d, n, b.n + 1, b.n, w.top);
    t := JumpAhead(w, t2, pos + 2, b.n, ElseSkip(d, n, b.n + 1, d.n + 1), first, d.n + 1, d.n + 1);
    ReachTrans(w.m, s, t2, t);
    CloseKeeps(w.c, env, s0, t2, t, n, n + 1, v);
    ValueDone(w, s0, t, pos + 8 + |d.code|, d.n + 1, n + 1, n, v);
  }

  lemma ChoiceElse(w: Site, s0: State, s: State, pos: nat, b: Emitted, e: Expr, k: nat, n: nat, env: Env, fuel: nat)
    returns (t: State)
    requires Start(w, s, pos, k) && UpTo(w.Text(), pos) <= k && Keeps(s0, s, n, {}) && Agree(w.c, env, s.act.regs)
    requires n + 2 <= k && Holds(s, n + 2, 0) && GoodExpr(w.p, e, w.c.names.Keys)
    requires var d := EmitExpr(e, w.c, b.n + 1);
      && Stands(w, pos, ThenSkip(b, n, b.n + 1, d.n + 1) + (d.code + [Store(n + 1, d.lvid), ScopeEnd, Label(d.n + 1)]))
      && Fits(b.code, k, b.n, w.top) && k < b.n < d.n < w.top && b.lvid <= b.n
    requires CallsBelow(w.p, w.m, fuel)
    requires forall x :: x in w.c.names ==> w.c.names[x] <= n
    ensures Reaches(w.m, s, t)
    ensures SlowExpr(w.m, s, RunExpr(DoesAll(w.p), e, env, ShieldOf(w.c.hs), s.trace, fuel), fuel)
    ensures ExprDone(w, s0, t, pos + |b.code| + |EmitExpr(e, w.c, b.n + 1).code| + 10, n + 1, n,
                     RunExpr(DoesAll(w.p), e, env, ShieldOf(w.c.hs), s.trace, fuel))
    decreases e, 2
  {
    hide *;
    var d := EmitExpr(e, w.c, b.n + 1);
    var out := RunExpr(DoesAll(w.p), e, env, ShieldOf(w.c.hs), s.trace, fuel);
    ElseShape(w, pos, b, d, n);
    StartSize(w, s, pos, k);
    SlotsBound(w, s, pos, k);
    TestTaken(s, n + 2, 0, b.n + 1);
    var first := ThenSkipLands(b, n, d.n + 1, k, w.top);
    ThenSkipFits(b, n, d.n + 1, k, w.top);
    var t1 := JumpAhead(w, s, pos, k, ThenSkip(b, n, b.n + 1, d.n + 1), first, b.n + 1, b.n + 1);
    TestKeeps(w.c, env, s0, s, t1, n, 0);
    var q := pos + 7 + |b.code|;
    OperandAt(w, t1, q, e, b.n + 1, env);
    t := SimExpr(w, t1, q, e, b.n + 1, env, fuel);
    ReachTrans(w.m, s, t1, t);
    SlowAfter(w.m, s, t1, out, fuel);
    Operand(w, s0, t1, t, q, e, n, b.n + 1, env, out);
    if out.Value? {
      var t2 := BranchValue(w, s0, t, q + |d.code|, d.n, n, d.lvid, env, out.v);
      ReachTrans(w.m, s, t, t2);
      EndFits(d.n, w.top);
      t := StartThrough(w, t2, q + |d.code| + 1, d.n, [ScopeEnd, Label(d.n + 1)], d.n + 1, d.n + 1);
      ReachTrans(w.m, s, t2, t);
      CloseKeeps(w.c, env, s0, t2, t, n, n + 1, out.v);
      ValueDone(w, s0, t, q + |d.code| + 3, d.n + 1, n + 1, n, out.v);
    }
  }

  lemma EndFits(n: nat, top: nat)
    ensures Fits([ScopeEnd, Label(n + 1)], n, n + 1, top)
    ensures IsIdle(ScopeEnd) && IsIdle(Label(n + 1))
  {
  }

  lemma ChoiceParts(w: Site, s: State, pos: nat, e: Expr, n: nat, env: Env, fuel: nat)
    requires e.Choice?
    requires ExprAt(w, s, pos, e, n, env)
    ensures var a := EmitExpr(e.c, w.c, n + 2);
      var b := EmitExpr(e.t, w.c, a.n);
      var d := EmitExpr(e.e, w.c, b.n + 1);
      && EmitExpr(e, w.c, n) == MakeChoice(a, b, d, n)
      && EmitExpr(e, w.c, n).lvid == n + 1 && n + 2 < a.n < b.n < d.n < w.top
      && Fits(b.code, a.n, b.n, w.top) && Fits(d.code, b.n + 1, d.n, w.top) && b.lvid <= b.n && d.lvid <= d.n
    ensures var out := RunExpr(DoesAll(w.p), e.c, env, ShieldOf(w.c.hs), s.trace, fuel);
      && RunExpr(DoesAll(w.p), e, env, ShieldOf(w.c.hs), s.trace, fuel)
         == (if out.ExprExit? then out
             else RunExpr(DoesAll(w.p), if out.v != 0 then e.t else e.e, env, ShieldOf(w.c.hs), out.trace, fuel))
    ensures GoodExpr(w.p, e.c, w.c.names.Keys) && GoodExpr(w.p, e.t, w.c.names.Keys)
    ensures GoodExpr(w.p, e.e, w.c.names.Keys)
    ensures Start(w, s, pos, n) && Stands(w, pos, EmitExpr(e, w.c, n).code) && Agree(w.c, env, s.act.regs)
  {
    UnfoldExpr(e, w.c, n);
    UnfoldRun(DoesAll(w.p), e, env, ShieldOf(w.c.hs), s.trace, fuel);
    hide EmitExpr;
    hide Fits;
    hide GoodStmt;
    hide RunExpr;
    var a := EmitExpr(e.c, w.c, n + 2);
    var b := EmitExpr(e.t, w.c, a.n);
    ExprGrows(e.c, w.c, n + 2);
    ExprGrows(e.t, w.c, a.n);
    ExprGrows(e.e, w.c, b.n + 1);
    ExprFits(e.t, w.c, a.n, w.top);
    ExprFits(e.e, w.c, b.n + 1, w.top);
  }

  lemma SimChoice(w: Site, s: State, pos: nat, e: Expr, n: nat, env: Env, fuel: nat) returns (t: State)
    requires e.Choice?
    requires ExprAt(w, s, pos, e, n, env)
    requires CallsBelow(w.p, w.m, fuel)
    ensures Reaches(w.m, s, t)
    ensures SlowExpr(w.m, s, RunExpr(DoesAll(w.p), e, env, ShieldOf(w.c.hs), s.trace, fuel), fuel)
    ensures ExprDone(w, s, t, pos + |EmitExpr(e, w.c, n).code|, EmitExpr(e, w.c, n).lvid, n,
                     RunExpr(DoesAll(w.p), e, env, ShieldOf(w.c.hs), s.trace, fuel))
    decreases e, 0
  {
    hide *;
    ChoiceParts(w, s, pos, e, n, env, fuel);
    var a := EmitExpr(e.c, w.c, n + 2);
    var b := EmitExpr(e.t, w.c, a.n);
    var d := EmitExpr(e.e, w.c, b.n + 1);
    var out := RunExpr(DoesAll(w.p), e.c, env, ShieldOf(w.c.hs), s.trace, fuel);
    ChoiceOpens(w, pos, a, b, d, n);
    ScopeIdle(w, n + 1);
    SlotsBound(w, s, pos, n);
    var t0 := StartIdle(w, s, pos, n, [Stackalloc(n + 1)], n + 1);
    MovedKeeps(s, t0, n);
    AgreeSame(w.c, env, s, t0);
    t := SimCondition(w, t0, pos + 1, e.c, n + 1, n + 2, env, fuel);
    ReachTrans(w.m, s, t0, t);
    SlowAfter(w.m, s, t0, out, fuel);
    ConditionUsed(w, s, t0, t, pos + 1 + |a.code| + 4, n, n + 1, a.n, n + 2, env, out);
    if out.Value? {
      var t2: State;
      if out.v != 0 {
        t2 := ChoiceThen(w, s, t, pos + 5 + |a.code|, e.t, a.n, d, n, env, fuel, out.v);
      } else {
        t2 := ChoiceElse(w, s, t, pos + 5 + |a.code|, b, e.e, a.n, n, env, fuel);
      }
      SlowAfter(w.m, s, t, RunExpr(DoesAll(w.p), e, env, ShieldOf(w.c.hs), s.trace, fuel), fuel);
      ReachTrans(w.m, s, t, t2);
      t := t2;
    }
  }

  lemma ConditionUsed(w: Site, s: State, t0: State, t: State, pos: nat, n: nat, n1: nat, n': nat, cond: nat, env: Env,
                      out: ExprOut)
    requires ConditionDone(w, t0, t, pos, n1, n', cond, env, out) && Keeps(s, t0, n, {}) && n <= n1
    ensures out.ExprExit? ==> forall pos', lvid :: ExprDone(w, s, t, pos', lvid, n, out)
    ensures out.Value? ==>
      && Start(w, t, pos, n') && UpTo(w.Text(), pos) <= n' && Keeps(s, t, n, {}) && Agree(w.c, env, t.act.regs)
      && Holds(t, cond, out.v) && t.trace == out.trace
  {
    if out.ExprExit? {
      assert ExprDone(w, t0, t, 0, 0, n1, out);
      StoppedLater(w.m, s, t0, t, w.f, w.c.hs, w.hp, n, n1, out.exit);
    }
  }

  // ---- function calls ----

  ghost predicate HoldAll(s: State, lvids: seq<nat>, vs: seq<u64>) {
    |lvids| == |vs| && forall i :: 0 <= i < |lvids| ==> Holds(s, lvids[i], vs[i])
  }

  // The arguments have been evaluated, or the evaluation has stopped there
  ghost predicate ArgsDone(w: Site, s: State, t: State, pos: nat, a: EmittedArgs, n: nat, out: ArgsOut) {
    && t.trace == out.trace
    && match out
       case Values(vs, _) =>
         && Start(w, t, pos + |a.code|, a.n) && UpTo(w.Text(), pos + |a.code|) <= a.n && Keeps(s, t, n, {})
         && HoldAll(t, a.lvids, vs)
       case ArgsExit(x, _) => Stopped(w.m, s, t, w.f, w.c.hs, w.hp, n, x)
  }

  ghost predicate SlowArgs(m: Program, s: State, out: ArgsOut, fuel: int) {
    out.ArgsExit? && out.exit == Timeout ==> Goes(m, s, fuel)
  }

  lemma SimArgs(w: Site, s: State, pos: nat, args: Args, n: nat, env: Env, fuel: nat) returns (t: State)
    requires Start(w, s, pos, n) && UpTo(w.Text(), pos) <= n && Agree(w.c, env, s.act.regs)
    requires Stands(w, pos, EmitArgs(args, w.c, n).code) && EmitArgs(args, w.c, n).n <= w.top
    requires GoodArgs(w.p, args, w.c.names.Keys) && CallsBelow(w.p, w.m, fuel)
    ensures Reaches(w.m, s, t)
    ensures SlowArgs(w.m, s, RunArgs(DoesAll(w.p), args, env, ShieldOf(w.c.hs), s.trace, fuel), fuel)
    ensures ArgsDone(w, s, t, pos, EmitArgs(args, w.c, n), n,
                     RunArgs(DoesAll(w.p), args, env, ShieldOf(w.c.hs), s.trace, fuel))
    decreases args, 1
  {
    hide *;
    if args.NoArgs? {
      NoArgsDone(w, s, pos, n, env, fuel);
      ReachSelf(w.m, s);
      t := s;
    } else {
      ArgsParts(w, s, pos, args, n, env, fuel);
      var a := EmitExpr(args.e, w.c, n);
      var out := RunExpr(DoesAll(w.p), args.e, env, ShieldOf(w.c.hs), s.trace, fuel);
      OperandAt(w, s, pos, args.e, n, env);
      t := SimExpr(w, s, pos, args.e, n, env, fuel);
      KeepsSelf(s, n);
      Operand(w, s, s, t, pos, args.e, n, n, env, out);
      if out.ExprExit? {
        ArgsStopped(w, s, t, pos, args, n, env, fuel);
      } else {
        var t1 := t;
        t := SimArgs(w, t1, pos + |a.code|, args.rest, a.n, env, fuel);
        ReachTrans(w.m, s, t1, t);
        ArgsGoOn(w, s, t1, t, pos, args, n, env, fuel);
      }
    }
  }

  lemma KeepsSelf(s: State, n: nat)
    ensures Keeps(s, s, n, {})
  {
  }

  lemma NoArgsDone(w: Site, s: State, pos: nat, n: nat, env: Env, fuel: nat)
    requires Start(w, s, pos, n) && UpTo(w.Text(), pos) <= n
    ensures SlowArgs(w.m, s, RunArgs(DoesAll(w.p), NoArgs, env, ShieldOf(w.c.hs), s.trace, fuel), fuel)
    ensures ArgsDone(w, s, s, pos, EmitArgs(NoArgs, w.c, n), n,
                     RunArgs(DoesAll(w.p), NoArgs, env, ShieldOf(w.c.hs), s.trace, fuel))
  {
  }

  lemma ArgsParts(w: Site, s: State, pos: nat, args: Args, n: nat, env: Env, fuel: nat)
    requires args.More? && Stands(w, pos, EmitArgs(args, w.c, n).code) && EmitArgs(args, w.c, n).n <= w.top
    requires GoodArgs(w.p, args, w.c.names.Keys)
    ensures var a := EmitExpr(args.e, w.c, n);
      var b := EmitArgs(args.rest, w.c, a.n);
      && Stands(w, pos, a.code) && Stands(w, pos + |a.code|, b.code) && a.n <= b.n <= w.top
      && EmitArgs(args, w.c, n) == EmittedArgs(a.code + b.code, b.n, [a.lvid] + b.lvids)
    ensures GoodExpr(w.p, args.e, w.c.names.Keys) && GoodArgs(w.p, args.rest, w.c.names.Keys)
  {
    hide EmitExpr;
    hide Stands;
    var a := EmitExpr(args.e, w.c, n);
    var b := EmitArgs(args.rest, w.c, a.n);
    ArgsGrow(args.rest, w.c, a.n);
    Split(w, pos, a.code, b.code);
  }

  lemma ArgsStopped(w: Site, s: State, t: State, pos: nat, args: Args, n: nat, env: Env, fuel: nat)
    requires args.More?
    requires var out := RunExpr(DoesAll(w.p), args.e, env, ShieldOf(w.c.hs), s.trace, fuel);
      && out.ExprExit? && SlowExpr(w.m, s, out, fuel)
      && forall pos', lvid :: ExprDone(w, s, t, pos', lvid, n, out)
    ensures SlowArgs(w.m, s, RunArgs(DoesAll(w.p), args, env, ShieldOf(w.c.hs), s.trace, fuel), fuel)
    ensures ArgsDone(w, s, t, pos, EmitArgs(args, w.c, n), n,
                     RunArgs(DoesAll(w.p), args, env, ShieldOf(w.c.hs), s.trace, fuel))
  {
    hide EmitArgs;
    assert ExprDone(w, s, t, 0, 0, n, RunExpr(DoesAll(w.p), args.e, env, ShieldOf(w.c.hs), s.trace, fuel));
    hide RunExpr;
    hide Stopped;
  }

  lemma ArgsGoOn(w: Site, s: State, t1: State, t: State, pos: nat, args: Args, n: nat, env: Env, fuel: nat)
    requires args.More? && Keeps(s, t1, n, {}) && Reaches(w.m, s, t1)
    requires var a := EmitExpr(args.e, w.c, n);
      var b := EmitArgs(args.rest, w.c, a.n);
      var out := RunExpr(DoesAll(w.p), args.e, env, ShieldOf(w.c.hs), s.trace, fuel);
      && n < a.lvid <= a.n && out.Value? && Holds(t1, a.lvid, out.v) && t1.trace == out.trace
      && ArgsDone(w, t1, t, pos + |a.code|, b, a.n, RunArgs(DoesAll(w.p), args.rest, env, ShieldOf(w.c.hs), out.trace,
                                                            fuel))
      && SlowArgs(w.m, t1, RunArgs(DoesAll(w.p), args.rest, env, ShieldOf(w.c.hs), out.trace, fuel), fuel)
      && EmitArgs(args, w.c, n) == EmittedArgs(a.code + b.code, b.n, [a.lvid] + b.lvids)
    ensures SlowArgs(w.m, s, RunArgs(DoesAll(w.p), args, env, ShieldOf(w.c.hs), s.trace, fuel), fuel)
    ensures ArgsDone(w, s, t, pos, EmitArgs(args, w.c, n), n,
                     RunArgs(DoesAll(w.p), args, env, ShieldOf(w.c.hs), s.trace, fuel))
  {
    hide EmitArgs;
    hide EmitExpr;
    hide Start;
    hide Reaches;
    hide Goes;
    var a := EmitExpr(args.e, w.c, n);
    var out := RunExpr(DoesAll(w.p), args.e, env, ShieldOf(w.c.hs), s.trace, fuel);
    var rest := RunArgs(DoesAll(w.p), args.rest, env, ShieldOf(w.c.hs), out.trace, fuel);
    hide RunExpr;
    if rest.Values? {
      HoldsKept(t1, t, a.lvid, out.v, a.n);
      assert HoldAll(t, [a.lvid] + EmitArgs(args.rest, w.c, a.n).lvids, [out.v] + rest.vs);
    } else {
      if rest.exit == Timeout {
        GoesOn(w.m, s, t1, fuel);
      }
      StoppedLater(w.m, s, t1, t, w.f, w.c.hs, w.hp, n, a.n, rest.exit);
    }
  }

  // The arguments are pushed one by one
  lemma {:induction false} PushAll(w: Site, s: State, pos: nat, lvids: seq<nat>, vs: seq<u64>,
                                   j: nat) returns (t: State)
    requires Stands(w, pos, Pushes(lvids)) && HoldAll(s, lvids, vs) && j <= |lvids|
    requires s.status == Running && s.act.func == w.f && s.act.pc == pos + j && s.params == vs[..j]
    ensures Reaches(w.m, s, t)
    ensures t == s.(params := vs, act := s.act.(pc := pos + |lvids|))
    decreases |lvids| - j
  {
    if j == |lvids| {
      t := s;
      ReachSelf(w.m, s);
    } else {
      Reads(w, pos, Pushes(lvids), j);
      assert Holds(s, lvids[j], vs[j]);
      ReachStep(w.m, s);
      var t1 := Step(w.m, s);
      assert vs[..j] + [vs[j]] == vs[..j + 1];
      t := PushAll(w, t1, pos, lvids, vs, j + 1);
      ReachTrans(w.m, s, t1, t);
    }
  }

  // The function is entered
  lemma EnterStep(w: Site, s: State, pos: nat, lvid: nat, g: nat, vs: seq<u64>) returns (t: State)
    requires w.Setup() && Stands(w, pos, [Call(lvid, g)]) && g < |w.p| && |vs| == |w.p[g].params|
    requires s.status == Running && s.act.func == w.f && s.act.pc == pos && s.params == vs && !s.unwinding
    requires lvid < |s.act.regs|
    ensures Reaches(w.m, s, t) && Entered(w.p, w.m, t, g, vs)
    ensures t.callers == s.callers + [Suspended(s.act, lvid)] && t.trace == s.trace
  {
    Reads(w, pos, [Call(lvid, g)], 0);
    ReachStep(w.m, s);
    t := Step(w.m, s);
    BodyGrows(w.p[g]);
    hide EmitBody;
    hide GoodProgram;
    assert w.m.funcs[g] == EmitFunc(w.p[g]);
    assert UpTo(w.m.funcs[g], 1) == UpTo(w.m.funcs[g], 0);
  }

  lemma BodyGrows(f: Func)
    ensures EmitBody(f).n >= FirstId(f)
  {
    StmtGrows(WholeBody(f), Ctx(Parameters(f.params), NO_HANDLER), FirstId(f));
  }

  // Back from the function
  ghost predicate Back(w: Site, s: State, t: State, pos: nat, lvid: nat, n: nat, unwinding: bool) {
    Ready(w.m, t, w.f, pos, unwinding) && Keeps(s, t, n, {}) && lvid < |t.act.regs|
  }

  // What the call is for its caller, before the dispatch
  function CallOut(h: Shield, o: StmtOut): ExprOut {
    match o
    case Normal(_, trace) => Value(0, trace)
    case Returned(v, trace) => Value(v, trace)
    case StmtExit(Unwound(atomid, error), _, trace) => ExprExit(Raised(h, atomid, error), trace)
    case StmtExit(exit, _, trace) => ExprExit(exit, trace)
  }

  lemma CallReturns(w: Site, s: State, e: State, t: State, pos: nat, lvid: nat, n: nat, g: nat, o: StmtOut)
    requires s.act.func == w.f && s.act.pc == pos && Stands(w, pos, [Call(lvid, g)])
    requires s.act.upper == UpTo(w.Text(), pos) && n < lvid < |s.act.regs|
    requires e.callers == s.callers + [Suspended(s.act, lvid)] && Answered(w.m, e, t, o)
    ensures t.trace == o.trace
    ensures o.Returned? ==> Back(w, s, t, pos + 1, lvid, n, false) && Holds(t, lvid, o.v)
    ensures o.StmtExit? && o.exit.Unwound? ==>
      Back(w, s, t, pos + 1, lvid, n, true) && t.error == o.exit.error && t.errorType == o.exit.atomid
    ensures o.StmtExit? && !o.exit.Unwound? ==>
      !o.exit.Caught? && CutShort(w.m, t, o.exit)
    ensures !o.Normal?
  {
    Reads(w, pos, [Call(lvid, g)], 0);
    assert UpTo(w.Text(), pos + 1) == UpTo(w.Text(), pos);
  }

  // The instruction after a call: the handlers in scope stand before it
  ghost predicate Landing(w: Site, s: State, pos: nat, last: nat) {
    && Ordered(w.m) && Scene(w.m, w.f, pos, last, w.c.hs, w.hp) && UpTo(w.Text(), pos) <= last && CanReturn(s)
    && FitsHandlers(w.c.hs, last) && ProperTypes(w.c.hs) && last < |s.act.regs|
  }

  lemma Lands2(w: Site, s: State, pos: nat, last: nat, frag: Code, top: nat)
    requires Start(w, s, pos, last) && UpTo(w.Text(), pos) <= last && last <= w.top
    requires Stands(w, pos, frag) && Flat(frag, top)
    ensures Landing(w, s, pos + |frag|, last)
  {
    FlatFits(frag, last, top);
    SceneMoves(w.m, w.f, pos, frag, last, last, last, top, w.c.hs, w.hp);
    UpToFrag(w.Text(), pos, frag, |frag|, 0);
  }

  // The end of a call: the result, or the dispatch of the error
  lemma CallDone(w: Site, s0: State, s: State, t1: State, pos: nat, n: nat, last: nat, o: StmtOut) returns (t: State)
    requires Landing(w, s, pos, last) && Keeps(s0, s, n, {}) && n + 2 <= last
    requires Stands(w, pos, [ScopeEnd] + Dispatch(w.c.hs, last + 1))
    requires t1.trace == o.trace && !o.Normal?
    requires o.Returned? ==> Back(w, s, t1, pos, n + 2, n, false) && Holds(t1, n + 2, o.v)
    requires o.StmtExit? && o.exit.Unwound? ==>
      Back(w, s, t1, pos, n + 2, n, true) && t1.error == o.exit.error && t1.errorType == o.exit.atomid
    requires o.StmtExit? && !o.exit.Unwound? ==>
      !o.exit.Caught? && CutShort(w.m, t1, o.exit)
    ensures Reaches(w.m, t1, t)
    ensures ExprDone(w, s0, t, pos + 1 + |Dispatch(w.c.hs, last + 1)|, n + 2, n, CallOut(ShieldOf(w.c.hs), o))
  {
    hide Dispatch;
    hide Stands;
    hide Raised;
    hide Scene;
    if o.Returned? {
      t := CloseCall(w, t1, pos, last);
    } else if o.exit.Unwound? {
      t := CallRaises(w, s, t1, pos, n, last);
      StoppedLater(w.m, s0, s, t, w.f, w.c.hs, w.hp, n, n, Raised(ShieldOf(w.c.hs), o.exit.atomid, o.exit.error));
    } else {
      t := t1;
      ReachSelf(w.m, t1);
    }
  }

  lemma CallRaises(w: Site, s: State, t1: State, pos: nat, n: nat, last: nat) returns (t: State)
    requires Landing(w, s, pos, last) && n + 2 <= last && Back(w, s, t1, pos, n + 2, n, true)
    requires Stands(w, pos, [ScopeEnd] + Dispatch(w.c.hs, last + 1))
    ensures Reaches(w.m, t1, t) && t.trace == t1.trace
    ensures Stopped(w.m, s, t, w.f, w.c.hs, w.hp, n, Raised(ShieldOf(w.c.hs), t1.errorType, t1.error))
  {
    hide *;
    Split(w, pos, [ScopeEnd], Dispatch(w.c.hs, last + 1));
    var t2 := RaiseIdle(w, s, t1, pos, n, last);
    t := RaiseDispatch(w, t2, pos + 1, last);
    ReachTrans(w.m, t1, t2, t);
    StoppedLater(w.m, s, t2, t, w.f, w.c.hs, w.hp, n, last, Raised(ShieldOf(w.c.hs), t1.errorType, t1.error));
  }

  lemma RaiseIdle(w: Site, s: State, t1: State, pos: nat, n: nat, last: nat) returns (t: State)
    requires Landing(w, s, pos, last) && n + 2 <= last && Back(w, s, t1, pos, n + 2, n, true)
    requires Stands(w, pos, [ScopeEnd])
    ensures Reaches(w.m, t1, t) && Ready(w.m, t, w.f, pos + 1, true) && Landing(w, t, pos + 1, last)
    ensures Keeps(s, t, n, {}) && t.errorType == t1.errorType && t.error == t1.error && t.trace == t1.trace
  {
    Reads(w, pos, [ScopeEnd], 0);
    t := IdleRun(w.m, t1, w.f, pos, pos + 1, true);
    assert Fits([ScopeEnd], last, last, last);
    SceneMoves(w.m, w.f, pos, [ScopeEnd], last, last, last, last, w.c.hs, w.hp);
  }

  lemma RaiseDispatch(w: Site, s: State, pos: nat, last: nat) returns (t: State)
    requires Stands(w, pos, Dispatch(w.c.hs, last + 1)) && Landing(w, s, pos, last) && Ready(w.m, s, w.f, pos, true)
    ensures Reaches(w.m, s, t) && t.trace == s.trace
    ensures Stopped(w.m, s, t, w.f, w.c.hs, w.hp, last, Raised(ShieldOf(w.c.hs), s.errorType, s.error))
  {
    hide Dispatch;
    hide Scene;
    hide Stopped;
    t := DispatchError(w.m, s, w.f, pos, last + 1, last, w.c.hs, w.hp, last);
  }

  lemma {:induction false} ArityOfRun(p: seq<Func>, args: Args, env: Env, h: Shield, trace: seq<Event>, fuel: nat)
    ensures var out := RunArgs(p, args, env, h, trace, fuel);
      out.Values? ==> |out.vs| == Arity(args)
    decreases args
  {
    hide RunExpr;
    if args.More? {
      var out := RunExpr(p, args.e, env, h, trace, fuel);
      if out.Value? {
        ArityOfRun(p, args.rest, env, h, out.trace, fuel);
      }
    }
  }

  lemma UnfoldApply(p: seq<Func>, e: Expr, env: Env, h: Shield, trace: seq<Event>, fuel: nat)
    requires e.Apply?
    ensures var a := RunArgs(p, e.args, env, h, trace, fuel);
      RunExpr(p, e, env, h, trace, fuel)
      == if a.ArgsExit? then ExprExit(a.exit, a.trace)
         else if fuel == 0 then ExprExit(Timeout, a.trace)
         else CallOut(h, RunFunc(p, e.f, a.vs, a.trace, fuel - 1))
  {
    hide RunArgs;
    hide RunFunc;
  }

  lemma ApplyParts(w: Site, s: State, pos: nat, e: Expr, n: nat, env: Env, fuel: nat)
    requires e.Apply?
    requires ExprAt(w, s, pos, e, n, env)
    ensures var a := EmitArgs(e.args, w.c, n + 2);
      && EmitExpr(e, w.c, n) == MakeCall(a.code, Pushes(a.lvids) + [Call(n + 2, e.f)], w.c.hs, n, a.n)
      && EmitExpr(e, w.c, n).lvid == n + 2 && n + 2 <= a.n < w.top
    ensures GoodArgs(w.p, e.args, w.c.names.Keys) && e.f < |w.p|
    ensures var out := RunArgs(DoesAll(w.p), e.args, env, ShieldOf(w.c.hs), s.trace, fuel);
      && (out.ArgsExit? ==>
            RunExpr(DoesAll(w.p), e, env, ShieldOf(w.c.hs), s.trace, fuel) == ExprExit(out.exit, out.trace))
      && (out.Values? ==>
            && |out.vs| == |w.p[e.f].params|
            && (fuel == 0 ==>
                  RunExpr(DoesAll(w.p), e, env, ShieldOf(w.c.hs), s.trace, fuel) == ExprExit(Timeout, out.trace)))
      && (out.Values? && fuel > 0 ==>
            RunExpr(DoesAll(w.p), e, env, ShieldOf(w.c.hs), s.trace, fuel)
            == CallOut(ShieldOf(w.c.hs), RunFunc(DoesAll(w.p), e.f, out.vs, out.trace, fuel - 1)))
    ensures Start(w, s, pos, n) && Stands(w, pos, EmitExpr(e, w.c, n).code) && Agree(w.c, env, s.act.regs)
    ensures UpTo(w.Text(), pos) <= n + 1
  {
    UnfoldExpr(e, w.c, n);
    UnfoldApply(DoesAll(w.p), e, env, ShieldOf(w.c.hs), s.trace, fuel);
    ArityOfRun(DoesAll(w.p), e.args, env, ShieldOf(w.c.hs), s.trace, fuel);
    ArgsGrow(e.args, w.c, n + 2);
    hide EmitExpr;
    hide RunExpr;
    hide RunFunc;
    hide GoodStmt;
  }

  lemma SimApply(w: Site, s: State, pos: nat, e: Expr, n: nat, env: Env, fuel: nat) returns (t: State)
    requires e.Apply?
    requires ExprAt(w, s, pos, e, n, env)
    requires CallsBelow(w.p, w.m, fuel)
    ensures Reaches(w.m, s, t)
    ensures SlowExpr(w.m, s, RunExpr(DoesAll(w.p), e, env, ShieldOf(w.c.hs), s.trace, fuel), fuel)
    ensures ExprDone(w, s, t, pos + |EmitExpr(e, w.c, n).code|, EmitExpr(e, w.c, n).lvid, n,
                     RunExpr(DoesAll(w.p), e, env, ShieldOf(w.c.hs), s.trace, fuel))
    decreases e, 0
  {
    hide *;
    ApplyParts(w, s, pos, e, n, env, fuel);
    var a := EmitArgs(e.args, w.c, n + 2);
    var out := RunArgs(DoesAll(w.p), e.args, env, ShieldOf(w.c.hs), s.trace, fuel);
    var t0 := CallOpens(w, s, pos, n, a.code, Pushes(a.lvids) + [Call(n + 2, e.f)], a.n);
    MovedKeeps(s, t0, n);
    AgreeSame(w.c, env, s, t0);
    t := SimArgs(w, t0, pos + 3, e.args, n + 2, env, fuel);
    ReachTrans(w.m, s, t0, t);
    ArgsUsed(w, s, t0, t, pos + 3, a, n, n + 2, out, fuel);
    if out.Values? && fuel == 0 {
      NoFuel(w, s, t, pos + 3 + |a.code|, a.n, n, out.trace);
    } else if out.Values? {
      var t2 := SimCall(w, s, t, pos + 3 + |a.code|, a.lvids, out.vs, e.f, n, a.n, fuel);
      SlowAfter(w.m, s, t, RunExpr(DoesAll(w.p), e, env, ShieldOf(w.c.hs), s.trace, fuel), fuel);
      ReachTrans(w.m, s, t, t2);
      t := t2;
    }
  }

  lemma ArgsUsed(w: Site, s: State, t0: State, t: State, pos: nat, a: EmittedArgs, n: nat, n1: nat, out: ArgsOut,
                 fuel: nat)
    requires Reaches(w.m, s, t0) && SlowArgs(w.m, t0, out, fuel)
    requires ArgsDone(w, t0, t, pos, a, n1, out) && Keeps(s, t0, n, {}) && n <= n1
    ensures out.ArgsExit? ==> forall pos', lvid :: ExprDone(w, s, t, pos', lvid, n, ExprExit(out.exit, out.trace))
    ensures out.ArgsExit? ==> SlowExpr(w.m, s, ExprExit(out.exit, out.trace), fuel)
    ensures out.Values? ==>
      && Start(w, t, pos + |a.code|, a.n) && UpTo(w.Text(), pos + |a.code|) <= a.n && Keeps(s, t, n, {})
      && HoldAll(t, a.lvids, out.vs) && t.trace == out.trace
  {
    hide Reaches;
    hide Goes;
    if out.ArgsExit? {
      if out.exit == Timeout {
        GoesOn(w.m, s, t0, fuel);
      }
      StoppedLater(w.m, s, t0, t, w.f, w.c.hs, w.hp, n, n1, out.exit);
    }
  }

  // A call which is given no time at all
  lemma NoFuel(w: Site, s: State, t: State, pos: nat, k: nat, n: nat, trace: seq<Event>)
    requires Start(w, t, pos, k) && Reaches(w.m, s, t) && t.trace == trace
    ensures forall pos', lvid :: ExprDone(w, s, t, pos', lvid, n, ExprExit(Timeout, trace))
    ensures SlowExpr(w.m, s, ExprExit(Timeout, trace), 0)
  {
    hide Scene;
    hide Scoped;
    hide Reaches;
    hide Goes;
    GoesNow(w.m, t);
    GoesOn(w.m, s, t, 0);
  }

  // The arguments are pushed, the function runs, and its result or its error comes back
  lemma SimCall(w: Site, s0: State, s: State, pos: nat, lvids: seq<nat>, vs: seq<u64>, g: nat, n: nat, last: nat,
                fuel: nat) returns (t: State)
    requires Start(w, s, pos, last) && UpTo(w.Text(), pos) <= last && n + 2 <= last <= w.top
    requires Keeps(s0, s, n, {}) && HoldAll(s, lvids, vs) && g < |w.p| && |vs| == |w.p[g].params|
    requires Stands(w, pos, (Pushes(lvids) + [Call(n + 2, g)]) + ([ScopeEnd] + Dispatch(w.c.hs, last + 1)))
    requires CallsBelow(w.p, w.m, fuel) && fuel > 0
    ensures Reaches(w.m, s, t)
    ensures SlowExpr(w.m, s, CallOut(ShieldOf(w.c.hs), RunFunc(DoesAll(w.p), g, vs, s.trace, fuel - 1)), fuel)
    ensures ExprDone(w, s0, t, pos + |Pushes(lvids) + [Call(n + 2, g)]| + 1 + |Dispatch(w.c.hs, last + 1)|, n + 2, n,
                     CallOut(ShieldOf(w.c.hs), RunFunc(DoesAll(w.p), g, vs, s.trace, fuel - 1)))
  {
    hide *;
    var o := RunFunc(DoesAll(w.p), g, vs, s.trace, fuel - 1);
    Split(w, pos, Pushes(lvids) + [Call(n + 2, g)], [ScopeEnd] + Dispatch(w.c.hs, last + 1));
    Split(w, pos, Pushes(lvids), [Call(n + 2, g)]);
    var top := FlatCall(s, lvids, vs, n + 2, g);
    Lands2(w, s, pos, last, Pushes(lvids) + [Call(n + 2, g)], top);
    StartSize(w, s, pos, last);
    ReadyMeans(w, s, pos);
    assert s.params == vs[..0];
    var s1 := PushAll(w, s, pos, lvids, vs, 0);
    AfterPushes(w, s, s1, pos, lvids, vs, last);
    var e := EnterStep(w, s1, pos + |lvids|, n + 2, g, vs);
    ReachTrans(w.m, s, s1, e);
    var t1 := UseCall(w.p, w.m, e, g, vs, fuel);
    ReachTrans(w.m, s, e, t1);
    CallIsSlow(w.m, s, e, ShieldOf(w.c.hs), o, fuel);
    CallReturns(w, s1, e, t1, pos + |lvids|, n + 2, n, g, o);
    BackSame(w, s, s1, t1, pos + |lvids| + 1, n);
    t := CallDone(w, s0, s, t1, pos + |lvids| + 1, n, last, o);
    ReachTrans(w.m, s, t1, t);
  }

  lemma ReadyMeans(w: Site, s: State, pos: nat)
    requires Ready(w.m, s, w.f, pos, false)
    ensures s.status == Running && s.params == [] && !s.unwinding && s.act.func == w.f && s.act.pc == pos
    ensures w.f < |w.m.funcs| && pos <= |w.Text()| && s.act.upper == UpTo(w.Text(), pos)
  {
  }

  lemma AfterPushes(w: Site, s: State, s1: State, pos: nat, lvids: seq<nat>, vs: seq<u64>, last: nat)
    requires Ready(w.m, s, w.f, pos, false) && Stands(w, pos, Pushes(lvids))
    requires s1 == s.(params := vs, act := s.act.(pc := pos + |lvids|))
    ensures pos + |lvids| <= |w.Text()| && s1.act.upper == UpTo(w.Text(), pos + |lvids|)
  {
    UpToPushes(w, pos, lvids);
    hide Pushes;
    hide UpTo;
  }

  lemma UpToPushes(w: Site, pos: nat, lvids: seq<nat>)
    requires Stands(w, pos, Pushes(lvids))
    ensures UpTo(w.Text(), pos + |lvids|) == UpTo(w.Text(), pos)
  {
    hide UpTo;
    forall i | pos <= i < pos + |lvids|
      ensures !w.Text()[i].Label?
    {
      Reads(w, pos, Pushes(lvids), i - pos);
    }
    UpToFlat(w.Text(), pos, |lvids|);
  }

  lemma {:induction false} UpToFlat(code: Code, pos: nat, k: nat)
    requires pos + k <= |code| && forall i :: pos <= i < pos + k ==> !code[i].Label?
    ensures UpTo(code, pos + k) == UpTo(code, pos)
  {
    if k > 0 {
      UpToFlat(code, pos, k - 1);
    }
  }

  lemma FlatCall(s: State, lvids: seq<nat>, vs: seq<u64>, lvid: nat, g: nat) returns (top: nat)
    requires HoldAll(s, lvids, vs)
    ensures Flat(Pushes(lvids) + [Call(lvid, g)], top) && |lvids| == |vs|
  {
    top := |s.act.regs| + lvid;
    var code := Pushes(lvids) + [Call(lvid, g)];
    forall i | 0 <= i < |code|
      ensures !code[i].Label? && MaxLvid(code[i]) <= top
    {
      if i < |lvids| {
        assert Holds(s, lvids[i], vs[i]);
      }
    }
  }

  lemma UseCall(p: seq<Func>, m: Program, e: State, g: nat, vs: seq<u64>, fuel: nat) returns (t: State)
    requires Entered(p, m, e, g, vs) && CallsBelow(p, m, fuel) && fuel > 0
    ensures SlowStmt(m, e, RunFunc(DoesAll(p), g, vs, e.trace, fuel - 1), fuel - 2)
    ensures Reaches(m, e, t) && Answered(m, e, t, RunFunc(DoesAll(p), g, vs, e.trace, fuel - 1))
  {
    hide Entered;
    hide RunFunc;
    hide Answered;
    hide SlowStmt;
    assert CallWorks(p, m, g, vs, e, fuel - 1);
    t :| Reaches(m, e, t) && Answered(m, e, t, RunFunc(DoesAll(p), g, vs, e.trace, fuel - 1));
  }

  // The call itself takes one step
  lemma CallIsSlow(m: Program, s: State, e: State, h: Shield, o: StmtOut, fuel: nat)
    requires Reaches(m, s, e) && |e.callers| > |s.callers| && SlowStmt(m, e, o, fuel - 2)
    ensures SlowExpr(m, s, CallOut(h, o), fuel)
  {
    hide Reaches;
    hide Goes;
    if o.StmtExit? && o.exit == Timeout {
      GoesOn(m, s, e, fuel - 2);
    }
  }

  lemma BackSame(w: Site, s: State, s1: State, t: State, pos: nat, n: nat)
    requires s1.callers == s.callers && s1.act.func == s.act.func && s1.act.regs == s.act.regs
    ensures Back(w, s1, t, pos, n + 2, n, true) ==> Back(w, s, t, pos, n + 2, n, true)
    ensures Back(w, s1, t, pos, n + 2, n, false) ==> Back(w, s, t, pos, n + 2, n, false)
  {
  }
}
