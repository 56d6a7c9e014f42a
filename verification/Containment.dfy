// No error leaves a function of the machine but the predicted ones, whatever the run. The invariant looks at the code
// only: every 'raise' and every dispatch of a call names a handler in scope, or lets out a predicted error. It holds
// for the code of each accepted function, and each step of the machine keeps it.
module Containment {
  import opened Isa
  import opened Jumps
  import opened Machine
  import opened Handlers
  import opened Source
  import opened Emitter
  import opened Running
  import opened Dispatching
  import opened Effects

  // ---- the shape of the emitted code ----

  ghost predicate Covered(hs: Stack, errors: Errors, own: Errors) {
    if hs.IsEmpty() then errors <= own else forall a :: a in errors ==> hs.Select(a).Some?
  }

  ghost predicate GuardedBy(code: Code, i: nat, known: seq<Errors>, own: Errors, hs: Stack, id: nat) {
    && i < |code| && code[i].Call? && code[i].func < |known|
    && At(code, i + 1, [ScopeEnd] + Dispatch(hs, id)) && Covered(hs, known[code[i].func], own)
  }

  ghost predicate CallGuarded(code: Code, i: nat, known: seq<Errors>, own: Errors) {
    exists hs, id :: GuardedBy(code, i, known, own, hs, id)
  }

  // A dispatch follows every call, with a handler for each error of the function, or else these errors are
  // among those of the caller. So are the errors which are raised out of the function.
  ghost predicate Guarded(code: Code, known: seq<Errors>, own: Errors) {
    && (forall i :: 0 <= i < |code| && code[i].Call? ==> CallGuarded(code, i, known, own))
    && (forall i :: 0 <= i < |code| && code[i].Raise? && code[i].target == 0 ==> code[i].atomid in own)
  }

  lemma AtLeft(a: Code, b: Code, pos: nat, frag: Code)
    requires At(a, pos, frag)
    ensures At(a + b, pos, frag)
  {
  }

  lemma AtRight(a: Code, b: Code, pos: nat, frag: Code)
    requires At(b, pos, frag)
    ensures At(a + b, |a| + pos, frag)
  {
    forall i | 0 <= i < |frag|
      ensures (a + b)[|a| + pos + i] == frag[i]
    {
      assert (a + b)[|a| + (pos + i)] == b[pos + i];
    }
  }

  lemma CallLeft(a: Code, b: Code, i: nat, known: seq<Errors>, own: Errors)
    requires CallGuarded(a, i, known, own)
    ensures CallGuarded(a + b, i, known, own)
  {
    var hs, id :| GuardedBy(a, i, known, own, hs, id);
    hide Dispatch;
    AtLeft(a, b, i + 1, [ScopeEnd] + Dispatch(hs, id));
    hide At;
    assert GuardedBy(a + b, i, known, own, hs, id);
  }

  lemma CallRight(a: Code, b: Code, i: nat, known: seq<Errors>, own: Errors)
    requires CallGuarded(b, i, known, own)
    ensures CallGuarded(a + b, |a| + i, known, own)
  {
    var hs, id :| GuardedBy(b, i, known, own, hs, id);
    hide Dispatch;
    AtRight(a, b, i + 1, [ScopeEnd] + Dispatch(hs, id));
    hide At;
    assert (a + b)[|a| + i] == b[i];
    assert GuardedBy(a + b, |a| + i, known, own, hs, id);
  }

  lemma Join(a: Code, b: Code, known: seq<Errors>, own: Errors)
    requires Guarded(a, known, own) && Guarded(b, known, own)
    ensures Guarded(a + b, known, own)
  {
    hide CallGuarded;
    forall i | 0 <= i < |a + b| && (a + b)[i].Call?
      ensures CallGuarded(a + b, i, known, own)
    {
      if i < |a| {
        CallLeft(a, b, i, known, own);
      } else {
        assert b[i - |a|] == (a + b)[i];
        CallRight(a, b, i - |a|, known, own);
      }
    }
  }

  // Code without call nor 'raise'
  predicate Quiet(code: Code) {
    forall i :: 0 <= i < |code| ==> !code[i].Call? && !code[i].Raise?
  }

  lemma QuietGuarded(code: Code, known: seq<Errors>, own: Errors)
    requires Quiet(code)
    ensures Guarded(code, known, own)
  {
  }

  // Quiet code around
  lemma Around(a: Code, b: Code, d: Code, known: seq<Errors>, own: Errors)
    requires Guarded(b, known, own) && Quiet(a) && Quiet(d)
    ensures Guarded(a + (b + d), known, own)
  {
    hide Guarded;
    hide Quiet;
    QuietGuarded(a, known, own);
    QuietGuarded(d, known, own);
    Join(b, d, known, own);
    Join(a, b + d, known, own);
  }

  // Quiet code before
  lemma After(a: Code, b: Code, known: seq<Errors>, own: Errors)
    requires Guarded(b, known, own) && Quiet(a)
    ensures Guarded(a + b, known, own)
  {
    hide Guarded;
    hide Quiet;
    QuietGuarded(a, known, own);
    Join(a, b, known, own);
  }

  lemma QuietDispatch(hs: Stack, id: nat)
    ensures Quiet([ScopeEnd] + Dispatch(hs, id))
  {
    DispatchShape(hs, id);
    var code := Dispatch(hs, id);
    forall i | 0 <= i < |code|
      ensures !code[i].Call? && !code[i].Raise?
    {
      if 0 < i < |code| - 1 {
        assert code[i] == OnError(hs)[i - 1];
      }
    }
  }

  // ---- expressions ----

  lemma QuietCall(body: Code, op: Code, hs: Stack, n: nat, last: nat, known: seq<Errors>, own: Errors)
    requires Guarded(body, known, own) && Quiet(op)
    ensures Guarded(MakeCall(body, op, hs, n, last).code, known, own)
  {
    QuietDispatch(hs, last + 1);
    hide Dispatch;
    hide Guarded;
    Around(CallHeader(n), body, op + ([ScopeEnd] + Dispatch(hs, last + 1)), known, own);
  }

  lemma TheCall(lvids: seq<nat>, lvid: nat, f: nat, hs: Stack, id: nat, known: seq<Errors>, own: Errors)
    requires f < |known| && Covered(hs, known[f], own)
    ensures Guarded((Pushes(lvids) + [Call(lvid, f)]) + ([ScopeEnd] + Dispatch(hs, id)), known, own)
  {
    QuietDispatch(hs, id);
    var rest := [ScopeEnd] + Dispatch(hs, id);
    hide Dispatch;
    hide Covered;
    var code := [Call(lvid, f)] + rest;
    assert At(code, 1, rest);
    assert GuardedBy(code, 0, known, own, hs, id);
    assert CallGuarded(code, 0, known, own);
    assert forall i :: 0 < i < |code| ==> code[i] == rest[i - 1];
    assert Guarded(code, known, own);
    After(Pushes(lvids), code, known, own);
    assert (Pushes(lvids) + [Call(lvid, f)]) + rest == Pushes(lvids) + code;
  }

  lemma CoversMeans(hs: Stack, errors: Errors, own: Errors)
    requires Covers(ShieldOf(hs), errors) && (hs.IsEmpty() ==> errors <= own)
    ensures Covered(hs, errors, own)
  {
  }

  lemma {:induction false} ExprGuarded(e: Expr, c: Ctx, n: nat, known: seq<Errors>, own: Errors)
    requires ExprAccepted(e, known, ShieldOf(c.hs)) && ExprLeaks(e, known, ShieldOf(c.hs)) <= own
    ensures Guarded(EmitExpr(e, c, n).code, known, own)
    decreases e, 1
  {
    hide *;
    if e.Const? || e.Var? {
      LeafGuarded(e, c, n, known, own);
    } else if e.Choice? {
      ChoiceGuarded(e, c, n, known, own);
    } else if e.Apply? {
      ApplyGuarded(e, c, n, known, own);
    } else {
      OperatorGuarded(e, c, n, known, own);
    }
  }

  lemma LeafGuarded(e: Expr, c: Ctx, n: nat, known: seq<Errors>, own: Errors)
    requires e.Const? || e.Var?
    ensures Guarded(EmitExpr(e, c, n).code, known, own)
  {
    QuietGuarded(EmitExpr(e, c, n).code, known, own);
  }

  // The parts of an accepted expression are accepted
  lemma PartsAccepted(e: Expr, known: seq<Errors>, h: Shield, own: Errors)
    requires ExprAccepted(e, known, h) && ExprLeaks(e, known, h) <= own
    ensures e.Not? ==> ExprAccepted(e.e, known, h) && ExprLeaks(e.e, known, h) <= own
    ensures e.Bin? || e.Both? || e.Either? ==>
      && ExprAccepted(e.l, known, h) && ExprLeaks(e.l, known, h) <= own
      && ExprAccepted(e.r, known, h) && ExprLeaks(e.r, known, h) <= own
    ensures e.Choice? ==>
      && ExprAccepted(e.c, known, h) && ExprLeaks(e.c, known, h) <= own
      && ExprAccepted(e.t, known, h) && ExprLeaks(e.t, known, h) <= own
      && ExprAccepted(e.e, known, h) && ExprLeaks(e.e, known, h) <= own
    ensures e.Apply? ==>
      && ArgsAccepted(e.args, known, h, own) && e.f < |known| && Covers(h, known[e.f])
      && (h.IsEmpty() ==> known[e.f] <= own)
  {
  }

  predicate ArgsAccepted(args: Args, known: seq<Errors>, h: Shield, own: Errors) {
    && KnownArgs(args, known) && Covers(h, ArgsErrors(args, known))
    && (h.IsEmpty() ==> ArgsErrors(args, known) <= own)
  }

  lemma OperatorGuarded(e: Expr, c: Ctx, n: nat, known: seq<Errors>, own: Errors)
    requires e.Not? || e.Bin? || e.Both? || e.Either?
    requires ExprAccepted(e, known, ShieldOf(c.hs)) && ExprLeaks(e, known, ShieldOf(c.hs)) <= own
    ensures Guarded(EmitExpr(e, c, n).code, known, own)
    decreases e, 0
  {
    hide *;
    UnfoldExpr(e, c, n);
    PartsAccepted(e, known, ShieldOf(c.hs), own);
    if e.Not? {
      var r := EmitExpr(e.e, c, n + 2);
      ExprGuarded(e.e, c, n + 2, known, own);
      QuietOp(Negation(n + 2, r.lvid));
      QuietCall(r.code, [Negation(n + 2, r.lvid)], c.hs, n, r.n, known, own);
    } else {
      var n0 := if e.Bin? then n + 2 else n + 3;
      var a := EmitExpr(e.l, c, n0);
      var b := EmitExpr(e.r, c, a.n);
      ExprGuarded(e.l, c, n0, known, own);
      ExprGuarded(e.r, c, a.n, known, own);
      if e.Bin? {
        Join(a.code, b.code, known, own);
        QuietOp(Binary(e.op, n + 2, a.lvid, b.lvid));
        QuietCall(a.code + b.code, [Binary(e.op, n + 2, a.lvid, b.lvid)], c.hs, n, b.n, known, own);
      } else {
        ShortGuarded(a, b, n, e.Both?, e.lazy, known, own);
      }
    }
  }

  lemma QuietOp(i: Instr)
    requires !i.Call? && !i.Raise?
    ensures Quiet([i])
  {
  }

  lemma ShortGuarded(l: Emitted, r: Emitted, n: nat, both: bool, lazy: bool, known: seq<Errors>, own: Errors)
    requires Guarded(l.code, known, own) && Guarded(r.code, known, own)
    ensures Guarded(EmitShortCircuit(l, r, n, both, lazy).code, known, own)
  {
    var id := r.n + 1;
    var jump := if both then Jz(l.lvid, n + 2, id) else Jnz(l.lvid, n + 2, id);
    var tail := [Binary(if both then BitAnd else BitOr, n + 2, l.lvid, r.lvid), ScopeEnd,
                 Label(id), ScopeEnd, Stackalloc(id + 2), Store(n + 3, n + 2)];
    hide Guarded;
    Around(Room(lazy, id + 1, jump), r.code, tail, known, own);
    Join(l.code, Room(lazy, id + 1, jump) + (r.code + tail), known, own);
    After([Stackalloc(n + 1), Stackalloc(n + 2), Stackalloc(n + 3), ScopeBegin],
          l.code + (Room(lazy, id + 1, jump) + (r.code + tail)), known, own);
  }

  lemma ConditionGuarded(a: Emitted, cond: nat, known: seq<Errors>, own: Errors)
    requires Guarded(a.code, known, own)
    ensures Guarded(Condition(a, cond), known, own)
  {
    hide Guarded;
    Around([Stackalloc(cond), ScopeBegin], a.code, [Store(cond, a.lvid), ScopeEnd], known, own);
  }

  lemma ChoiceGuarded(e: Expr, c: Ctx, n: nat, known: seq<Errors>, own: Errors)
    requires e.Choice?
    requires ExprAccepted(e, known, ShieldOf(c.hs)) && ExprLeaks(e, known, ShieldOf(c.hs)) <= own
    ensures Guarded(EmitExpr(e, c, n).code, known, own)
    decreases e, 0
  {
    hide *;
    UnfoldExpr(e, c, n);
    PartsAccepted(e, known, ShieldOf(c.hs), own);
    var a := EmitExpr(e.c, c, n + 2);
    var b := EmitExpr(e.t, c, a.n);
    ExprGuarded(e.c, c, n + 2, known, own);
    ExprGuarded(e.t, c, a.n, known, own);
    ExprGuarded(e.e, c, b.n + 1, known, own);
    ChoiceCodeGuarded(a, b, EmitExpr(e.e, c, b.n + 1), n, known, own);
  }

  lemma ChoiceCodeGuarded(a: Emitted, b: Emitted, d: Emitted, n: nat, known: seq<Errors>, own: Errors)
    requires Guarded(a.code, known, own) && Guarded(b.code, known, own) && Guarded(d.code, known, own)
    ensures Guarded(MakeChoice(a, b, d, n).code, known, own)
  {
    hide Guarded;
    ConditionGuarded(a, n + 2, known, own);
    hide Condition;
    var mid := [Store(n + 1, b.lvid), ScopeEnd, Jmp(d.n + 1), Label(b.n + 1), ScopeBegin];
    var tail := [Store(n + 1, d.lvid), ScopeEnd, Label(d.n + 1)];
    var test := [Jz(n + 2, 0, b.n + 1), ScopeBegin];
    Around(mid, d.code, tail, known, own);
    Join(b.code, mid + (d.code + tail), known, own);
    After(test, b.code + (mid + (d.code + tail)), known, own);
    Join(Condition(a, n + 2), test + (b.code + (mid + (d.code + tail))), known, own);
    After([Stackalloc(n + 1)], Condition(a, n + 2) + (test + (b.code + (mid + (d.code + tail)))), known, own);
  }

  lemma ApplyGuarded(e: Expr, c: Ctx, n: nat, known: seq<Errors>, own: Errors)
    requires e.Apply?
    requires ExprAccepted(e, known, ShieldOf(c.hs)) && ExprLeaks(e, known, ShieldOf(c.hs)) <= own
    ensures Guarded(EmitExpr(e, c, n).code, known, own)
    decreases e, 0
  {
    hide *;
    UnfoldExpr(e, c, n);
    PartsAccepted(e, known, ShieldOf(c.hs), own);
    var a := EmitArgs(e.args, c, n + 2);
    ArgsGuarded(e.args, c, n + 2, known, own);
    SameEmpty(c.hs);
    CoversMeans(c.hs, known[e.f], own);
    TheCall(a.lvids, n + 2, e.f, c.hs, a.n + 1, known, own);
    LoudCall(a.code, Pushes(a.lvids) + [Call(n + 2, e.f)], c.hs, n, a.n, known, own);
  }

  lemma SameEmpty(hs: Stack)
    ensures hs.IsEmpty() <==> ShieldOf(hs).IsEmpty()
  {
  }

  lemma LoudCall(body: Code, op: Code, hs: Stack, n: nat, last: nat, known: seq<Errors>, own: Errors)
    requires Guarded(body, known, own) && Guarded(op + ([ScopeEnd] + Dispatch(hs, last + 1)), known, own)
    ensures Guarded(MakeCall(body, op, hs, n, last).code, known, own)
  {
    hide Dispatch;
    hide Guarded;
    Join(body, op + ([ScopeEnd] + Dispatch(hs, last + 1)), known, own);
    After(CallHeader(n), body + (op + ([ScopeEnd] + Dispatch(hs, last + 1))), known, own);
  }

  lemma {:induction false} ArgsGuarded(args: Args, c: Ctx, n: nat, known: seq<Errors>, own: Errors)
    requires ArgsAccepted(args, known, ShieldOf(c.hs), own)
    ensures Guarded(EmitArgs(args, c, n).code, known, own)
    decreases args
  {
    hide EmitExpr;
    hide Guarded;
    if args.NoArgs? {
      QuietGuarded([], known, own);
    } else {
      var a := EmitExpr(args.e, c, n);
      ExprGuarded(args.e, c, n, known, own);
      ArgsGuarded(args.rest, c, a.n, known, own);
      Join(a.code, EmitArgs(args.rest, c, a.n).code, known, own);
    }
  }

  // ---- statements ----

  ghost predicate Safe(s: Stmt, c: Ctx, known: seq<Errors>, own: Errors) {
    StmtAccepted(s, known, ShieldOf(c.hs)) && StmtLeaks(s, known, ShieldOf(c.hs)) <= own
  }

  ghost predicate SafeExpr(e: Expr, c: Ctx, known: seq<Errors>, own: Errors) {
    ExprAccepted(e, known, ShieldOf(c.hs)) && ExprLeaks(e, known, ShieldOf(c.hs)) <= own
  }

  lemma ExprIsGuarded(e: Expr, c: Ctx, n: nat, known: seq<Errors>, own: Errors)
    requires SafeExpr(e, c, known, own)
    ensures Guarded(EmitExpr(e, c, n).code, known, own)
  {
    hide EmitExpr;
    hide Guarded;
    hide ExprAccepted;
    hide ExprLeaks;
    ExprGuarded(e, c, n, known, own);
  }

  lemma SafeParts(s: Stmt, c: Ctx, known: seq<Errors>, own: Errors)
    requires Safe(s, c, known, own)
    ensures s.Block? ==> Safe(s.s, c, known, own)
    ensures s.Seq? ==> Safe(s.a, c, known, own) && Safe(s.b, c, known, own)
    ensures s.Let? ==> SafeExpr(s.e, c, known, own) && forall lvid :: Safe(s.s, c.Declare(s.x, lvid), known, own)
    ensures s.Assign? || s.Eval? || s.Observe? || s.Assert? || s.Return? || s.Throw? ==> SafeExpr(s.e, c, known, own)
    ensures s.Throw? ==> (c.RaiseTarget(s.atomid) == 0 && PositiveTargets(c.hs) ==> s.atomid in own)
    ensures s.If? ==> SafeExpr(s.c, c, known, own) && Safe(s.t, c, known, own)
    ensures s.IfElse? ==> SafeExpr(s.c, c, known, own) && Safe(s.t, c, known, own) && Safe(s.f, c, known, own)
    ensures s.While? || s.DoWhile? ==> SafeExpr(s.c, c, known, own) && Safe(s.s, c, known, own)
  {
    hide ExprAccepted;
    hide ExprLeaks;
  }

  // A handler has a label
  predicate PositiveTargets(hs: Stack) { forall i :: 0 <= i < |hs.typed| ==> hs.typed[i].handler.target > 0 }

  lemma SafeOnFail(s: Stmt, c: Ctx, n: nat, known: seq<Errors>, own: Errors)
    requires s.OnFail? && Safe(s, c, known, own) && PositiveTargets(c.hs)
    ensures Safe(s.h, InHandler(c, s.atomid, s.x, n), known, own)
    ensures Safe(s.s, c.With(s.atomid, n + 1), known, own) && PositiveTargets(c.With(s.atomid, n + 1).hs)
  {
    hide ExprAccepted;
    hide ExprLeaks;
    var c' := c.With(s.atomid, n + 1);
    if s.atomid != 0 {
      assert c'.hs.Types() == c.hs.Types() + [s.atomid];
    } else {
      assert c'.hs.Types() == c.hs.Types();
    }
    assert ShieldOf(c'.hs) == ShieldOf(c.hs).With(s.atomid);
    SafeSame(s.s, known, own, ShieldOf(c.hs).With(s.atomid), c');
  }

  lemma SafeSame(s: Stmt, known: seq<Errors>, own: Errors, h: Shield, c: Ctx)
    requires StmtAccepted(s, known, h) && StmtLeaks(s, known, h) <= own && h == ShieldOf(c.hs)
    ensures Safe(s, c, known, own)
  {
  }

  lemma {:induction false} StmtGuarded(s: Stmt, c: Ctx, n: nat, known: seq<Errors>, own: Errors)
    requires Safe(s, c, known, own) && PositiveTargets(c.hs)
    ensures Guarded(EmitStmt(s, c, n).code, known, own)
    decreases s, 1
  {
    hide *;
    if s.Skip? {
      SkipGuarded(c, n, known, own);
    } else if s.Block? || s.Seq? || s.Let? {
      BlockGuarded(s, c, n, known, own);
    } else if s.OnFail? {
      FailGuarded(s, c, n, known, own);
    } else if s.If? || s.IfElse? || s.While? || s.DoWhile? {
      BranchGuarded(s, c, n, known, own);
    } else {
      SimpleGuarded(s, c, n, known, own);
    }
  }

  lemma SkipGuarded(c: Ctx, n: nat, known: seq<Errors>, own: Errors)
    ensures Guarded(EmitStmt(Skip, c, n).code, known, own)
  {
    QuietGuarded([], known, own);
  }

  lemma DeclareKeeps(c: Ctx, x: nat, lvid: nat)
    ensures c.Declare(x, lvid).hs == c.hs
  {
  }

  lemma ScopesAreQuiet(n: nat, lvid: nat)
    ensures Quiet([ScopeBegin]) && Quiet([ScopeEnd]) && Quiet([Stackalloc(n)]) && Quiet([Store(n, lvid)])
  {
  }

  lemma BlockGuarded(s: Stmt, c: Ctx, n: nat, known: seq<Errors>, own: Errors)
    requires s.Block? || s.Seq? || s.Let?
    requires Safe(s, c, known, own) && PositiveTargets(c.hs)
    ensures Guarded(EmitStmt(s, c, n).code, known, own)
    decreases s, 0
  {
    hide *;
    UnfoldBlock(s, c, n);
    SafeParts(s, c, known, own);
    match s
    case Block(s1) =>
      StmtGuarded(s1, c, n, known, own);
      ScopesAreQuiet(0, 0);
      Around([ScopeBegin], EmitStmt(s1, c, n).code, [ScopeEnd], known, own);
    case Seq(a, b) =>
      var r := EmitStmt(a, c, n);
      StmtGuarded(a, c, n, known, own);
      StmtGuarded(b, c, r.n, known, own);
      Join(r.code, EmitStmt(b, c, r.n).code, known, own);
    case Let(x, e, s1) =>
      var a := EmitExpr(e, c, n + 1);
      DeclareKeeps(c, x, n + 1);
      ExprIsGuarded(e, c, n + 1, known, own);
      StmtGuarded(s1, c.Declare(x, n + 1), a.n, known, own);
      var b := EmitStmt(s1, c.Declare(x, n + 1), a.n);
      ScopesAreQuiet(n + 1, a.lvid);
      After([Store(n + 1, a.lvid)], b.code, known, own);
      Join(a.code, [Store(n + 1, a.lvid)] + b.code, known, own);
      After([Stackalloc(n + 1)], a.code + ([Store(n + 1, a.lvid)] + b.code), known, own);
  }

  lemma SimpleGuarded(s: Stmt, c: Ctx, n: nat, known: seq<Errors>, own: Errors)
    requires s.Assign? || s.Assert? || s.Eval? || s.Observe? || s.Return? || s.Throw?
    requires Safe(s, c, known, own) && PositiveTargets(c.hs)
    ensures Guarded(EmitStmt(s, c, n).code, known, own)
  {
    hide *;
    UnfoldSimple(s, c, n);
    SafeParts(s, c, known, own);
    if s.Assign? || s.Assert? {
      var a := EmitExpr(s.e, c, n + 2);
      var op := if s.Assign? then Store(c.Slot(s.x), a.lvid) else Opassert(a.lvid);
      ExprIsGuarded(s.e, c, n + 2, known, own);
      QuietOp(op);
      QuietCall(a.code, [op], c.hs, n, a.n, known, own);
    } else {
      var a := EmitExpr(s.e, c, n);
      ExprIsGuarded(s.e, c, n, known, own);
      OperationGuarded(s, c, a, known, own);
      ScopesAreQuiet(0, 0);
      Join(a.code, Operation(s, c, a), known, own);
      After([ScopeBegin], a.code + Operation(s, c, a), known, own);
      SimpleCode(a, Operation(s, c, a), if s.Return? then a.n + 1 else a.n);
    }
  }

  lemma SimpleCode(a: Emitted, op: Code, n: nat)
    ensures MakeSimple([ScopeBegin], a, op, n).code == [ScopeBegin] + (a.code + op)
  {
  }

  lemma OperationGuarded(s: Stmt, c: Ctx, a: Emitted, known: seq<Errors>, own: Errors)
    requires s.Throw? && c.RaiseTarget(s.atomid) == 0 ==> s.atomid in own
    ensures Guarded(Operation(s, c, a), known, own)
  {
  }

  lemma BranchGuarded(s: Stmt, c: Ctx, n: nat, known: seq<Errors>, own: Errors)
    requires s.If? || s.IfElse? || s.While? || s.DoWhile?
    requires Safe(s, c, known, own) && PositiveTargets(c.hs)
    ensures Guarded(EmitStmt(s, c, n).code, known, own)
    decreases s, 0
  {
    hide *;
    UnfoldBranch(s, c, n);
    SafeParts(s, c, known, own);
    if s.If? {
      var a := EmitExpr(s.c, c, n + 1);
      ExprIsGuarded(s.c, c, n + 1, known, own);
      StmtGuarded(s.t, c, a.n, known, own);
      IfGuarded(a, EmitStmt(s.t, c, a.n), n, known, own);
    } else if s.IfElse? {
      var a := EmitExpr(s.c, c, n + 1);
      var b := EmitStmt(s.t, c, a.n);
      ExprIsGuarded(s.c, c, n + 1, known, own);
      StmtGuarded(s.t, c, a.n, known, own);
      StmtGuarded(s.f, c, b.n + 1, known, own);
      IfElseGuarded(a, b, EmitStmt(s.f, c, b.n + 1), n, known, own);
    } else if s.While? {
      var a := EmitExpr(s.c, c, n + 2);
      ExprIsGuarded(s.c, c, n + 2, known, own);
      StmtGuarded(s.s, c, a.n, known, own);
      WhileGuarded(a, EmitStmt(s.s, c, a.n), n, known, own);
    } else {
      var b := EmitStmt(s.s, c, n + 1);
      ExprIsGuarded(s.c, c, b.n + 1, known, own);
      StmtGuarded(s.s, c, n + 1, known, own);
      DoWhileGuarded(b, EmitExpr(s.c, c, b.n + 1), n, known, own);
    }
  }

  lemma IfGuarded(a: Emitted, b: EmittedStmt, n: nat, known: seq<Errors>, own: Errors)
    requires Guarded(a.code, known, own) && Guarded(b.code, known, own)
    ensures Guarded(MakeIf(a, b, n).code, known, own)
  {
    hide Guarded;
    ConditionGuarded(a, n + 1, known, own);
    hide Condition;
    Around([Jz(n + 1, 0, b.n + 1), ScopeBegin], b.code, [ScopeEnd, Label(b.n + 1)], known, own);
    Join(Condition(a, n + 1), [Jz(n + 1, 0, b.n + 1), ScopeBegin] + (b.code + [ScopeEnd, Label(b.n + 1)]), known, own);
  }

  lemma IfElseGuarded(a: Emitted, b: EmittedStmt, d: EmittedStmt, n: nat, known: seq<Errors>, own: Errors)
    requires Guarded(a.code, known, own) && Guarded(b.code, known, own) && Guarded(d.code, known, own)
    ensures Guarded(MakeIfElse(a, b, d, n).code, known, own)
  {
    hide Guarded;
    ConditionGuarded(a, n + 1, known, own);
    hide Condition;
    var mid := [ScopeEnd, Jmp(d.n + 1), Label(b.n + 1), ScopeBegin];
    var tail := [ScopeEnd, Label(d.n + 1)];
    var test := [Jz(n + 1, 0, b.n + 1), ScopeBegin];
    Around(mid, d.code, tail, known, own);
    Join(b.code, mid + (d.code + tail), known, own);
    After(test, b.code + (mid + (d.code + tail)), known, own);
    Join(Condition(a, n + 1), test + (b.code + (mid + (d.code + tail))), known, own);
  }

  lemma WhileGuarded(a: Emitted, b: EmittedStmt, n: nat, known: seq<Errors>, own: Errors)
    requires Guarded(a.code, known, own) && Guarded(b.code, known, own)
    ensures Guarded(MakeWhile(a, b, n).code, known, own)
  {
    hide Guarded;
    ConditionGuarded(a, n + 2, known, own);
    hide Condition;
    var test := [Jz(n + 2, 0, b.n + 1), ScopeBegin];
    var tail := [ScopeEnd, Jmp(n + 1), Label(b.n + 1), ScopeEnd];
    Around(test, b.code, tail, known, own);
    Join(Condition(a, n + 2), test + (b.code + tail), known, own);
    After([ScopeBegin, Label(n + 1)], Condition(a, n + 2) + (test + (b.code + tail)), known, own);
  }

  lemma DoWhileGuarded(b: EmittedStmt, a: Emitted, n: nat, known: seq<Errors>, own: Errors)
    requires Guarded(a.code, known, own) && Guarded(b.code, known, own)
    ensures Guarded(MakeDoWhile(b, a, n).code, known, own)
  {
    hide Guarded;
    ConditionGuarded(a, b.n + 1, known, own);
    hide Condition;
    var tail := [Jnz(b.n + 1, 0, n + 1), ScopeEnd];
    Around([ScopeEnd], Condition(a, b.n + 1), tail, known, own);
    Join(b.code, [ScopeEnd] + (Condition(a, b.n + 1) + tail), known, own);
    After([ScopeBegin, Label(n + 1), ScopeBegin], b.code + ([ScopeEnd] + (Condition(a, b.n + 1) + tail)), known, own);
  }

  lemma FailGuarded(s: Stmt, c: Ctx, n: nat, known: seq<Errors>, own: Errors)
    requires s.OnFail? && Safe(s, c, known, own) && PositiveTargets(c.hs)
    ensures Guarded(EmitStmt(s, c, n).code, known, own)
    decreases s, 0
  {
    hide *;
    UnfoldBlock(s, c, n);
    SafeOnFail(s, c, n, known, own);
    var c1 := InHandler(c, s.atomid, s.x, n);
    var a := EmitStmt(s.h, c1, FirstInHandler(s.atomid, n));
    InHandlerKeeps(c, s.atomid, s.x, n);
    StmtGuarded(s.h, c1, FirstInHandler(s.atomid, n), known, own);
    StmtGuarded(s.s, c.With(s.atomid, n + 1), a.n + 1, known, own);
    OnFailGuarded(s.atomid, a, EmitStmt(s.s, c.With(s.atomid, n + 1), a.n + 1), n, known, own);
  }

  lemma InHandlerKeeps(c: Ctx, atomid: nat, x: nat, n: nat)
    ensures InHandler(c, atomid, x, n).hs == c.hs
  {
  }

  lemma OnFailGuarded(atomid: nat, a: EmittedStmt, b: EmittedStmt, n: nat, known: seq<Errors>, own: Errors)
    requires Guarded(a.code, known, own) && Guarded(b.code, known, own)
    ensures Guarded(MakeOnFail(atomid, a, b, n).code, known, own)
  {
    hide Guarded;
    var mid := [ScopeEnd, Jmp(b.n + 1), Label(a.n + 1)];
    var tail := [Label(b.n + 1), ScopeEnd];
    Around(mid, b.code, tail, known, own);
    Join(a.code, mid + (b.code + tail), known, own);
    After(Entrance(atomid, n + 1), a.code + (mid + (b.code + tail)), known, own);
    After([ScopeBegin, Jmp(a.n + 1), Label(n + 1)],
          Entrance(atomid, n + 1) + (a.code + (mid + (b.code + tail))), known, own);
  }
}
