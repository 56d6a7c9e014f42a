// Where the labels and the registers of an emitted fragment lie. The labels of a fragment are ordered, and lie
// between the counter it was emitted from and the one it leaves; its registers are below the greatest one of the
// function. This holds for each construct from its parts, and so for every expression and every statement, however
// nested.
module Layout {
  import opened Isa
  import opened Handlers
  import opened Source
  import opened Emitter

  // The labels are ordered and within ]lo, hi], and no register is above 'top'
  ghost predicate Fits(code: Code, lo: nat, hi: nat, top: nat) {
    && OrderedLabels(code)
    && (forall i :: 0 <= i < |code| && code[i].Label? ==> lo < code[i].id <= hi)
    && (forall i :: 0 <= i < |code| ==> MaxLvid(code[i]) <= top)
  }

  lemma Cat(a: Code, b: Code, lo: nat, m: nat, k: nat, hi: nat, top: nat)
    requires Fits(a, lo, m, top) && Fits(b, k, hi, top) && lo <= k && m <= k + 1 && m <= hi
    ensures Fits(a + b, lo, hi, top)
  {
  }

  lemma Widen(a: Code, lo: nat, hi: nat, lo': nat, hi': nat, top: nat)
    requires Fits(a, lo, hi, top) && lo' <= lo && hi <= hi'
    ensures Fits(a, lo', hi', top)
  {
  }

  // Straight code without label
  predicate Flat(code: Code, top: nat) {
    forall i :: 0 <= i < |code| ==> !code[i].Label? && MaxLvid(code[i]) <= top
  }

  lemma FlatFits(code: Code, lo: nat, top: nat)
    requires Flat(code, top)
    ensures Fits(code, lo, lo, top)
  {
  }

  ghost predicate FitsHandlers(hs: Stack, n: nat) {
    && (forall i :: 0 <= i < |hs.typed| ==> hs.typed[i].handler.target + 1 <= n)
    && hs.any.target + 1 <= n
  }

  ghost predicate FitsCtx(c: Ctx, n: nat) {
    && (forall x :: x in c.names ==> c.names[x] <= n)
    && FitsHandlers(c.hs, n)
  }

  // ---- expressions ----

  lemma DispatchFits(hs: Stack, lo: nat, id: nat, top: nat)
    requires FitsHandlers(hs, top) && lo < id
    ensures Fits(Dispatch(hs, id), lo, id, top)
  {
    assert Flat(OnError(hs), top) by {
      if !hs.IsEmpty() && hs.HasAny() {
        assert forall i :: 0 <= i < |hs.typed| ==> OnError(hs)[i] == Chain(hs.typed)[i];
      }
    }
    hide Fits;
    FlatFits(OnError(hs), lo, top);
    FlatFits([Jzraise(id)], lo, top);
    assert Fits([Label(id)], lo, id, top) by { OneLabelFits(lo, id, top); }
    Cat([Jzraise(id)], OnError(hs), lo, lo, lo, lo, top);
    Cat([Jzraise(id)] + OnError(hs), [Label(id)], lo, lo, lo, id, top);
  }

  lemma OneLabelFits(lo: nat, id: nat, top: nat)
    requires lo < id
    ensures Fits([Label(id)], lo, id, top)
  {
  }

  lemma CallFits(body: Code, op: Code, hs: Stack, n: nat, last: nat, top: nat)
    requires Fits(body, n, last, top) && Flat(op, top) && n + 2 <= last < top && FitsHandlers(hs, top)
    ensures Fits(MakeCall(body, op, hs, n, last).code, n, last + 1, top)
  {
    hide Fits;
    DispatchFits(hs, last, last + 1, top);
    FlatFits([ScopeEnd], last, top);
    Cat([ScopeEnd], Dispatch(hs, last + 1), last, last, last, last + 1, top);
    FlatFits(op, last, top);
    Cat(op, [ScopeEnd] + Dispatch(hs, last + 1), last, last, last, last + 1, top);
    Cat(body, op + ([ScopeEnd] + Dispatch(hs, last + 1)), n, last, last, last + 1, top);
    FlatFits(CallHeader(n), n, top);
    Cat(CallHeader(n), body + (op + ([ScopeEnd] + Dispatch(hs, last + 1))), n, n, n, last + 1, top);
  }

  lemma ConditionFits(a: Emitted, cond: nat, lo: nat, top: nat)
    requires Fits(a.code, lo, a.n, top) && lo <= a.n && cond <= top && a.lvid <= top
    ensures Fits(Condition(a, cond), lo, a.n, top)
  {
    hide Fits;
    FlatFits([Store(cond, a.lvid), ScopeEnd], a.n, top);
    Cat(a.code, [Store(cond, a.lvid), ScopeEnd], lo, a.n, a.n, a.n, top);
    FlatFits([Stackalloc(cond), ScopeBegin], lo, top);
    Cat([Stackalloc(cond), ScopeBegin], a.code + [Store(cond, a.lvid), ScopeEnd], lo, lo, lo, a.n, top);
  }

  lemma OperationFits(l: Emitted, r: Emitted, n: nat, both: bool, lazy: bool, top: nat)
    requires n + 3 <= l.n <= r.n && l.lvid <= l.n && r.lvid <= r.n && r.n + 3 <= top
    ensures var id := r.n + 1;
      && Fits([Binary(if both then BitAnd else BitOr, n + 2, l.lvid, r.lvid), ScopeEnd,
               Label(id), ScopeEnd, Stackalloc(id + 2), Store(n + 3, n + 2)], r.n, r.n + 3, top)
      && Flat(Room(lazy, id + 1, if both then Jz(l.lvid, n + 2, id) else Jnz(l.lvid, n + 2, id)), top)
      && Flat([Stackalloc(n + 1), Stackalloc(n + 2), Stackalloc(n + 3), ScopeBegin], top)
  {
  }

  lemma ShortCircuitFits(l: Emitted, r: Emitted, n: nat, both: bool, lazy: bool, top: nat)
    requires Fits(l.code, n + 3, l.n, top) && Fits(r.code, l.n, r.n, top) && n + 3 <= l.n <= r.n
    requires l.lvid <= l.n && r.lvid <= r.n && r.n + 3 <= top
    ensures Fits(EmitShortCircuit(l, r, n, both, lazy).code, n, r.n + 3, top)
  {
    hide Fits;
    var id := r.n + 1;
    var jump := if both then Jz(l.lvid, n + 2, id) else Jnz(l.lvid, n + 2, id);
    var tail := [Binary(if both then BitAnd else BitOr, n + 2, l.lvid, r.lvid), ScopeEnd,
                 Label(id), ScopeEnd, Stackalloc(id + 2), Store(n + 3, n + 2)];
    OperationFits(l, r, n, both, lazy, top);
    hide Flat;
    Cat(r.code, tail, l.n, r.n, r.n, r.n + 3, top);
    FlatFits(Room(lazy, id + 1, jump), l.n, top);
    Cat(Room(lazy, id + 1, jump), r.code + tail, l.n, l.n, l.n, r.n + 3, top);
    Cat(l.code, Room(lazy, id + 1, jump) + (r.code + tail), n + 3, l.n, l.n, r.n + 3, top);
    FlatFits([Stackalloc(n + 1), Stackalloc(n + 2), Stackalloc(n + 3), ScopeBegin], n, top);
    Cat([Stackalloc(n + 1), Stackalloc(n + 2), Stackalloc(n + 3), ScopeBegin],
        l.code + (Room(lazy, id + 1, jump) + (r.code + tail)), n, n, n + 3, r.n + 3, top);
  }

  lemma ChoiceLabels(n: nat, b: Emitted, d: Emitted, top: nat)
    requires n < top && b.lvid <= top && d.lvid <= top && b.n < d.n
    ensures Fits([Store(n + 1, d.lvid), ScopeEnd, Label(d.n + 1)], d.n, d.n + 1, top)
    ensures Fits([Store(n + 1, b.lvid), ScopeEnd, Jmp(d.n + 1), Label(b.n + 1), ScopeBegin], b.n, b.n + 1, top)
  {
  }

  lemma ChoiceFits(a: Emitted, b: Emitted, d: Emitted, n: nat, top: nat)
    requires Fits(a.code, n + 2, a.n, top) && Fits(b.code, a.n, b.n, top) && Fits(d.code, b.n + 1, d.n, top)
    requires n + 2 <= a.n <= b.n < d.n < top
    requires a.lvid <= top && b.lvid <= top && d.lvid <= top
    ensures Fits(MakeChoice(a, b, d, n).code, n, d.n + 1, top)
  {
    hide Fits;
    ChoiceLabels(n, b, d, top);
    var tail := d.code + [Store(n + 1, d.lvid), ScopeEnd, Label(d.n + 1)];
    Cat(d.code, [Store(n + 1, d.lvid), ScopeEnd, Label(d.n + 1)], b.n + 1, d.n, d.n, d.n + 1, top);
    var mid := [Store(n + 1, b.lvid), ScopeEnd, Jmp(d.n + 1), Label(b.n + 1), ScopeBegin];
    Cat(mid, tail, b.n, b.n + 1, b.n + 1, d.n + 1, top);
    Cat(b.code, mid + tail, a.n, b.n, b.n, d.n + 1, top);
    ConditionFits(a, n + 2, n + 2, top);
    TestFits(Condition(a, n + 2), Jz(n + 2, 0, b.n + 1), b.code + (mid + tail), n + 2, a.n, d.n + 1, top);
    FlatFits([Stackalloc(n + 1)], n, top);
    Cat([Stackalloc(n + 1)], Condition(a, n + 2) + ([Jz(n + 2, 0, b.n + 1), ScopeBegin] + (b.code + (mid + tail))),
        n, n, n + 2, d.n + 1, top);
  }

  // A condition, the jump, then the rest
  lemma TestFits(cond: Code, jump: Instr, rest: Code, lo: nat, m: nat, hi: nat, top: nat)
    requires Fits(cond, lo, m, top) && Fits(rest, m, hi, top) && lo <= m <= hi
    requires !jump.Label? && MaxLvid(jump) <= top
    ensures Fits(cond + ([jump, ScopeBegin] + rest), lo, hi, top)
  {
    assert Flat([jump, ScopeBegin], top);
    hide Fits;
    FlatFits([jump, ScopeBegin], m, top);
    Cat([jump, ScopeBegin], rest, m, m, m, hi, top);
    Cat(cond, [jump, ScopeBegin] + rest, lo, m, m, hi, top);
  }

  lemma LeafFits(e: Expr, c: Ctx, n: nat, top: nat)
    requires e.Const? || e.Var?
    requires FitsCtx(c, n) && EmitExpr(e, c, n).n <= top
    ensures var r := EmitExpr(e, c, n);
      n < r.lvid <= r.n && Fits(r.code, n, r.n, top)
  {
  }

  // The labels of an expression are drawn while it is emitted, and so is its result
  lemma {:induction false} ExprFits(e: Expr, c: Ctx, n: nat, top: nat)
    requires FitsCtx(c, n) && EmitExpr(e, c, n).n <= top
    ensures var r := EmitExpr(e, c, n);
      n < r.lvid <= r.n && Fits(r.code, n, r.n, top)
    decreases e
  {
    UnfoldExpr(e, c, n);
    hide EmitExpr;
    hide Fits;
    if e.Const? || e.Var? {
      LeafFits(e, c, n, top);
    } else if e.Apply? {
      ArgsGrow(e.args, c, n + 2);
      var a := EmitArgs(e.args, c, n + 2);
      ArgsFit(e.args, c, n + 2, top);
      ApplyFits(a, e.f, c, n, top);
    } else if e.Choice? {
      ChoiceExprFits(e, c, n, top);
    } else {
      OperatorFits(e, c, n, top);
    }
  }

  lemma ApplyFits(a: EmittedArgs, f: nat, c: Ctx, n: nat, top: nat)
    requires Fits(a.code, n + 2, a.n, top) && n + 2 <= a.n < top && FitsHandlers(c.hs, top)
    requires forall i :: 0 <= i < |a.lvids| ==> a.lvids[i] <= a.n
    ensures Fits(MakeCall(a.code, Pushes(a.lvids) + [Call(n + 2, f)], c.hs, n, a.n).code, n, a.n + 1, top)
  {
    assert Flat(Pushes(a.lvids) + [Call(n + 2, f)], top);
    hide Fits;
    hide Flat;
    Widen(a.code, n + 2, a.n, n, a.n, top);
    CallFits(a.code, Pushes(a.lvids) + [Call(n + 2, f)], c.hs, n, a.n, top);
  }

  lemma ChoiceExprFits(e: Expr, c: Ctx, n: nat, top: nat)
    requires e.Choice?
    requires FitsCtx(c, n) && EmitExpr(e, c, n).n <= top
    ensures var r := EmitExpr(e, c, n);
      n < r.lvid <= r.n && Fits(r.code, n, r.n, top)
    decreases e, 0
  {
    UnfoldExpr(e, c, n);
    hide EmitExpr;
    hide Fits;
    ExprGrows(e.c, c, n + 2);
    var a := EmitExpr(e.c, c, n + 2);
    ExprGrows(e.t, c, a.n);
    var b := EmitExpr(e.t, c, a.n);
    ExprGrows(e.e, c, b.n + 1);
    ExprFits(e.c, c, n + 2, top);
    ExprFits(e.t, c, a.n, top);
    ExprFits(e.e, c, b.n + 1, top);
    ChoiceFits(a, b, EmitExpr(e.e, c, b.n + 1), n, top);
  }

  lemma OperatorFits(e: Expr, c: Ctx, n: nat, top: nat)
    requires e.Not? || e.Bin? || e.Both? || e.Either?
    requires FitsCtx(c, n) && EmitExpr(e, c, n).n <= top
    ensures var r := EmitExpr(e, c, n);
      n < r.lvid <= r.n && Fits(r.code, n, r.n, top)
    decreases e, 0
  {
    UnfoldExpr(e, c, n);
    hide EmitExpr;
    hide Fits;
    var first := if e.Not? then e.e else e.l;
    var n0 := if e.Not? || e.Bin? then n + 2 else n + 3;
    ExprGrows(first, c, n0);
    var a := EmitExpr(first, c, n0);
    if e.Not? {
      ExprFits(first, c, n0, top);
      Widen(a.code, n0, a.n, n, a.n, top);
      CallFits(a.code, [Negation(n + 2, a.lvid)], c.hs, n, a.n, top);
    } else {
      ExprGrows(e.r, c, a.n);
      var b := EmitExpr(e.r, c, a.n);
      ExprFits(first, c, n0, top);
      ExprFits(e.r, c, a.n, top);
      if e.Bin? {
        Widen(a.code, n0, a.n, n, a.n, top);
        Cat(a.code, b.code, n, a.n, a.n, b.n, top);
        CallFits(a.code + b.code, [Binary(e.op, n + 2, a.lvid, b.lvid)], c.hs, n, b.n, top);
      } else {
        ShortCircuitFits(a, b, n, e.Both?, e.lazy, top);
      }
    }
  }

  lemma {:induction false} ArgsFit(args: Args, c: Ctx, n: nat, top: nat)
    requires FitsCtx(c, n) && EmitArgs(args, c, n).n <= top
    ensures var r := EmitArgs(args, c, n);
      && Fits(r.code, n, r.n, top)
      && (forall i :: 0 <= i < |r.lvids| ==> n < r.lvids[i] <= r.n)
    decreases args
  {
    hide EmitExpr;
    if args.More? {
      ExprGrows(args.e, c, n);
      var a := EmitExpr(args.e, c, n);
      ArgsGrow(args.rest, c, a.n);
      ExprFits(args.e, c, n, top);
      ArgsFit(args.rest, c, a.n, top);
      hide Fits;
      var b := EmitArgs(args.rest, c, a.n);
      Cat(a.code, b.code, n, a.n, a.n, b.n, top);
    }
  }

  // Every expression draws at least one id
  lemma {:induction false} ExprGrows(e: Expr, c: Ctx, n: nat)
    ensures n < EmitExpr(e, c, n).n
    decreases e
  {
    UnfoldExpr(e, c, n);
    hide EmitExpr;
    if e.Const? || e.Var? {
      LeafGrows(e, c, n);
    } else if e.Apply? {
      ArgsGrow(e.args, c, n + 2);
    } else if e.Choice? {
      ExprGrows(e.c, c, n + 2);
      var a := EmitExpr(e.c, c, n + 2);
      ExprGrows(e.t, c, a.n);
      ExprGrows(e.e, c, EmitExpr(e.t, c, a.n).n + 1);
    } else if e.Not? {
      ExprGrows(e.e, c, n + 2);
    } else {
      var n0 := if e.Bin? then n + 2 else n + 3;
      ExprGrows(e.l, c, n0);
      ExprGrows(e.r, c, EmitExpr(e.l, c, n0).n);
    }
  }

  lemma LeafGrows(e: Expr, c: Ctx, n: nat)
    requires e.Const? || e.Var?
    ensures n < EmitExpr(e, c, n).n
  {
  }

  lemma {:induction false} ArgsGrow(args: Args, c: Ctx, n: nat)
    ensures n <= EmitArgs(args, c, n).n
    decreases args
  {
    hide EmitExpr;
    if args.More? {
      ExprGrows(args.e, c, n);
      ArgsGrow(args.rest, c, EmitExpr(args.e, c, n).n);
    }
  }

  // ---- statements ----

  // A statement which draws no id
  predicate DrawsNothing(s: Stmt) {
    match s
    case Skip => true
    case Block(s1) => DrawsNothing(s1)
    case Seq(a, b) => DrawsNothing(a) && DrawsNothing(b)
    case _ => false
  }

  // The last label of the statement is the one which ends a block with a handler. Its id was drawn after the
  // counter of the enclosing block had been saved: the next id drawn will be the same one.
  predicate EndsWithHandler(s: Stmt) {
    match s
    case OnFail(_, _, _, _) => true
    case Block(s1) => EndsWithHandler(s1)
    case Seq(a, b) => EndsWithHandler(b) || (DrawsNothing(b) && EndsWithHandler(a))
    case Let(_, _, s1) => EndsWithHandler(s1)
    case _ => false
  }

  // The greatest id among the labels
  function LastLabel(s: Stmt, n: nat): nat { if EndsWithHandler(s) then n + 1 else n }

  lemma {:induction false} StmtGrows(s: Stmt, c: Ctx, n: nat)
    ensures if DrawsNothing(s) then EmitStmt(s, c, n).n == n else n < EmitStmt(s, c, n).n
    decreases s
  {
    UnfoldBlock(s, c, n);
    UnfoldSimple(s, c, n);
    UnfoldBranch(s, c, n);
    match s
    case Skip =>
    case Block(s1) => StmtGrows(s1, c, n);
    case Seq(a, b) =>
      StmtGrows(a, c, n);
      StmtGrows(b, c, EmitStmt(a, c, n).n);
    case _ => ControlGrows(s, c, n);
  }

  lemma {:induction false} ControlGrows(s: Stmt, c: Ctx, n: nat)
    requires !s.Skip? && !s.Block? && !s.Seq?
    ensures n < EmitStmt(s, c, n).n
    decreases s, 0
  {
    UnfoldBlock(s, c, n);
    UnfoldSimple(s, c, n);
    UnfoldBranch(s, c, n);
    hide EmitStmt;
    hide EmitExpr;
    if s.Let? {
      ExprGrows(s.e, c, n + 1);
      StmtGrows(s.s, c.Declare(s.x, n + 1), EmitExpr(s.e, c, n + 1).n);
    } else if s.If? {
      ExprGrows(s.c, c, n + 1);
      StmtGrows(s.t, c, EmitExpr(s.c, c, n + 1).n);
    } else if s.IfElse? {
      ExprGrows(s.c, c, n + 1);
      var a := EmitExpr(s.c, c, n + 1);
      StmtGrows(s.t, c, a.n);
      StmtGrows(s.f, c, EmitStmt(s.t, c, a.n).n + 1);
    } else if s.While? {
      ExprGrows(s.c, c, n + 2);
      StmtGrows(s.s, c, EmitExpr(s.c, c, n + 2).n);
    } else if s.DoWhile? {
      StmtGrows(s.s, c, n + 1);
      ExprGrows(s.c, c, EmitStmt(s.s, c, n + 1).n + 1);
    } else if s.OnFail? {
      var c1 := InHandler(c, s.atomid, s.x, n);
      var n1 := FirstInHandler(s.atomid, n);
      StmtGrows(s.h, c1, n1);
      StmtGrows(s.s, c.With(s.atomid, n + 1), EmitStmt(s.h, c1, n1).n + 1);
    } else {
      ExprGrows(s.e, c, n);
      ExprGrows(s.e, c, n + 2);
    }
  }

  lemma {:induction false} StmtFits(s: Stmt, c: Ctx, n: nat, top: nat)
    requires FitsCtx(c, n) && EmitStmt(s, c, n).n <= top
    ensures var r := EmitStmt(s, c, n);
      Fits(r.code, n, LastLabel(s, r.n), top)
    decreases s, 1
  {
    if s.Skip? {
    } else if s.Block? || s.Seq? || s.Let? || s.OnFail? {
      BlockFits(s, c, n, top);
    } else if s.If? || s.IfElse? || s.While? || s.DoWhile? {
      BranchFits(s, c, n, top);
    } else {
      SimpleFits(s, c, n, top);
    }
  }

  lemma {:induction false} SimpleFits(s: Stmt, c: Ctx, n: nat, top: nat)
    requires s.Assign? || s.Assert? || s.Eval? || s.Observe? || s.Return? || s.Throw?
    requires FitsCtx(c, n) && EmitStmt(s, c, n).n <= top
    ensures Fits(EmitStmt(s, c, n).code, n, EmitStmt(s, c, n).n, top)
  {
    UnfoldSimple(s, c, n);
    hide EmitStmt;
    hide EmitExpr;
    hide Fits;
    if s.Assign? || s.Assert? {
      ExprGrows(s.e, c, n + 2);
      var a := EmitExpr(s.e, c, n + 2);
      ExprFits(s.e, c, n + 2, top);
      Widen(a.code, n + 2, a.n, n, a.n, top);
      CallFits(a.code, [if s.Assign? then Store(c.Slot(s.x), a.lvid) else Opassert(a.lvid)], c.hs, n, a.n, top);
    } else {
      ExprGrows(s.e, c, n);
      var a := EmitExpr(s.e, c, n);
      ExprFits(s.e, c, n, top);
      FlatFits([ScopeBegin], n, top);
      FlatFits(Operation(s, c, a), a.n, top);
      Cat(a.code, Operation(s, c, a), n, a.n, a.n, a.n, top);
      Cat([ScopeBegin], a.code + Operation(s, c, a), n, n, n, a.n, top);
      Widen([ScopeBegin] + (a.code + Operation(s, c, a)), n, a.n, n, EmitStmt(s, c, n).n, top);
    }
  }

  lemma ClosingFits(b: nat, hi: nat, d: nat, top: nat)
    ensures Fits([ScopeEnd, Label(b + 1)], b, b + 1, top)
    ensures Fits([ScopeEnd, Jmp(d + 1), Label(b + 1), ScopeBegin], b, b + 1, top)
    ensures Fits([ScopeEnd, Jmp(hi), Label(b + 1), ScopeEnd], b, b + 1, top)
    ensures Fits([ScopeEnd, Jmp(hi), Label(b + 1)], b, b + 1, top)
    ensures Fits([Label(b + 1), ScopeEnd], b, b + 1, top)
  {
  }

  lemma {:induction false} BranchFits(s: Stmt, c: Ctx, n: nat, top: nat)
    requires s.If? || s.IfElse? || s.While? || s.DoWhile?
    requires FitsCtx(c, n) && EmitStmt(s, c, n).n <= top
    ensures Fits(EmitStmt(s, c, n).code, n, EmitStmt(s, c, n).n, top)
    decreases s, 0
  {
    UnfoldBranch(s, c, n);
    hide EmitStmt;
    hide EmitExpr;
    if s.DoWhile? {
      LoopFits(s, c, n, top);
    } else {
      var n0 := if s.While? then n + 2 else n + 1;
      var s1 := if s.While? then s.s else s.t;
      ExprGrows(s.c, c, n0);
      var a := EmitExpr(s.c, c, n0);
      StmtGrows(s1, c, a.n);
      var b := EmitStmt(s1, c, a.n);
      if s.IfElse? {
        StmtGrows(s.f, c, b.n + 1);
      }
      ExprFits(s.c, c, n0, top);
      StmtFits(s1, c, a.n, top);
      if s.If? {
        IfFits(a, b, LastLabel(s1, b.n), n, top);
      } else if s.IfElse? {
        StmtFits(s.f, c, b.n + 1, top);
        var d := EmitStmt(s.f, c, b.n + 1);
        IfElseFits(a, b, d, LastLabel(s1, b.n), LastLabel(s.f, d.n), n, top);
      } else {
        WhileFits(a, b, LastLabel(s1, b.n), n, top);
      }
    }
  }

  lemma IfFits(a: Emitted, b: EmittedStmt, hi: nat, n: nat, top: nat)
    requires Fits(a.code, n + 1, a.n, top) && Fits(b.code, a.n, hi, top)
    requires n + 1 < a.n <= b.n <= hi <= b.n + 1 <= top && a.lvid <= top
    ensures Fits(MakeIf(a, b, n).code, n, b.n + 1, top)
  {
    hide Fits;
    ConditionFits(a, n + 1, n + 1, top);
    ClosingFits(b.n, b.n, b.n + 1, top);
    Cat(b.code, [ScopeEnd, Label(b.n + 1)], a.n, hi, b.n, b.n + 1, top);
    TestFits(Condition(a, n + 1), Jz(n + 1, 0, b.n + 1), b.code + [ScopeEnd, Label(b.n + 1)], n + 1, a.n, b.n + 1, top);
    Widen(MakeIf(a, b, n).code, n + 1, b.n + 1, n, b.n + 1, top);
  }

  lemma IfElseFits(a: Emitted, b: EmittedStmt, d: EmittedStmt, hi: nat, hi': nat, n: nat, top: nat)
    requires Fits(a.code, n + 1, a.n, top) && Fits(b.code, a.n, hi, top) && Fits(d.code, b.n + 1, hi', top)
    requires n + 1 < a.n <= b.n <= hi <= b.n + 1 <= d.n <= hi' <= d.n + 1 <= top && a.lvid <= top
    ensures Fits(MakeIfElse(a, b, d, n).code, n, d.n + 1, top)
  {
    hide Fits;
    ConditionFits(a, n + 1, n + 1, top);
    ClosingFits(d.n, d.n, d.n + 1, top);
    ClosingFits(b.n, b.n, d.n, top);
    Cat(d.code, [ScopeEnd, Label(d.n + 1)], b.n + 1, hi', d.n, d.n + 1, top);
    var rest := d.code + [ScopeEnd, Label(d.n + 1)];
    var mid := [ScopeEnd, Jmp(d.n + 1), Label(b.n + 1), ScopeBegin];
    Cat(mid, rest, b.n, b.n + 1, b.n + 1, d.n + 1, top);
    Cat(b.code, mid + rest, a.n, hi, b.n, d.n + 1, top);
    TestFits(Condition(a, n + 1), Jz(n + 1, 0, b.n + 1), b.code + (mid + rest), n + 1, a.n, d.n + 1, top);
    Widen(MakeIfElse(a, b, d, n).code, n + 1, d.n + 1, n, d.n + 1, top);
  }

  lemma WhileFits(a: Emitted, b: EmittedStmt, hi: nat, n: nat, top: nat)
    requires Fits(a.code, n + 2, a.n, top) && Fits(b.code, a.n, hi, top)
    requires n + 2 < a.n <= b.n <= hi <= b.n + 1 <= top && a.lvid <= top
    ensures Fits(MakeWhile(a, b, n).code, n, b.n + 1, top)
  {
    hide Fits;
    ConditionFits(a, n + 2, n + 2, top);
    ClosingFits(b.n, n + 1, b.n + 1, top);
    var rest := b.code + [ScopeEnd, Jmp(n + 1), Label(b.n + 1), ScopeEnd];
    Cat(b.code, [ScopeEnd, Jmp(n + 1), Label(b.n + 1), ScopeEnd], a.n, hi, b.n, b.n + 1, top);
    TestFits(Condition(a, n + 2), Jz(n + 2, 0, b.n + 1), rest, n + 2, a.n, b.n + 1, top);
    OpeningFits(n, top);
    Cat([ScopeBegin, Label(n + 1)], Condition(a, n + 2) + ([Jz(n + 2, 0, b.n + 1), ScopeBegin] + rest),
        n, n + 1, n + 2, b.n + 1, top);
  }

  lemma OpeningFits(n: nat, top: nat)
    ensures Fits([ScopeBegin, Label(n + 1)], n, n + 1, top)
    ensures Fits([ScopeBegin, Label(n + 1), ScopeBegin], n, n + 1, top)
  {
  }

  lemma {:induction false} LoopFits(s: Stmt, c: Ctx, n: nat, top: nat)
    requires s.DoWhile?
    requires FitsCtx(c, n) && EmitStmt(s, c, n).n <= top
    ensures Fits(EmitStmt(s, c, n).code, n, EmitStmt(s, c, n).n, top)
    decreases s, -1
  {
    UnfoldBranch(s, c, n);
    hide EmitStmt;
    hide EmitExpr;
    StmtGrows(s.s, c, n + 1);
    var b := EmitStmt(s.s, c, n + 1);
    ExprGrows(s.c, c, b.n + 1);
    var a := EmitExpr(s.c, c, b.n + 1);
    StmtFits(s.s, c, n + 1, top);
    ExprFits(s.c, c, b.n + 1, top);
    hide Fits;
    ConditionFits(a, b.n + 1, b.n + 1, top);
    FlatFits([Jnz(b.n + 1, 0, n + 1), ScopeEnd], a.n, top);
    FlatFits([ScopeEnd], b.n + 1, top);
    OpeningFits(n, top);
    var test := Condition(a, b.n + 1) + [Jnz(b.n + 1, 0, n + 1), ScopeEnd];
    Cat(Condition(a, b.n + 1), [Jnz(b.n + 1, 0, n + 1), ScopeEnd], b.n + 1, a.n, a.n, a.n, top);
    Cat([ScopeEnd], test, b.n + 1, b.n + 1, b.n + 1, a.n, top);
    Cat(b.code, [ScopeEnd] + test, n + 1, LastLabel(s.s, b.n), b.n + 1, a.n, top);
    Cat([ScopeBegin, Label(n + 1), ScopeBegin], b.code + ([ScopeEnd] + test), n, n + 1, n + 1, a.n, top);
  }

  lemma {:induction false} BlockFits(s: Stmt, c: Ctx, n: nat, top: nat)
    requires s.Block? || s.Seq? || s.Let? || s.OnFail?
    requires FitsCtx(c, n) && EmitStmt(s, c, n).n <= top
    ensures Fits(EmitStmt(s, c, n).code, n, LastLabel(s, EmitStmt(s, c, n).n), top)
    decreases s, 0
  {
    UnfoldBlock(s, c, n);
    hide EmitStmt;
    hide EmitExpr;
    hide Fits;
    match s
    case Block(s1) =>
      StmtGrows(s1, c, n);
      StmtFits(s1, c, n, top);
      ScopeFits(EmitStmt(s1, c, n).code, n, LastLabel(s1, EmitStmt(s1, c, n).n), top);
    case Seq(s1, s2) =>
      SeqFits(s1, s2, s, c, n, top);
    case Let(_, _, _) =>
      LetFits(s, c, n, top);
    case OnFail(_, _, _, _) =>
      HandlerFits(s, c, n, top);
  }

  lemma ScopeFits(code: Code, n: nat, hi: nat, top: nat)
    requires Fits(code, n, hi, top) && n <= hi
    ensures Fits([ScopeBegin] + (code + [ScopeEnd]), n, hi, top)
  {
    hide Fits;
    FlatFits([ScopeBegin], n, top);
    FlatFits([ScopeEnd], hi, top);
    Cat(code, [ScopeEnd], n, hi, hi, hi, top);
    Cat([ScopeBegin], code + [ScopeEnd], n, n, n, hi, top);
  }

  lemma SeqFits(s1: Stmt, s2: Stmt, s: Stmt, c: Ctx, n: nat, top: nat)
    requires s == Seq(s1, s2)
    requires FitsCtx(c, n) && EmitStmt(s, c, n).n <= top
    ensures Fits(EmitStmt(s, c, n).code, n, LastLabel(s, EmitStmt(s, c, n).n), top)
    decreases s, -1
  {
    UnfoldBlock(s, c, n);
    hide EmitStmt;
    hide Fits;
    var a := EmitStmt(s1, c, n);
    StmtGrows(s1, c, n);
    StmtGrows(s2, c, a.n);
    var b := EmitStmt(s2, c, a.n);
    StmtFits(s1, c, n, top);
    StmtFits(s2, c, a.n, top);
    Widen(b.code, a.n, LastLabel(s2, b.n), a.n, LastLabel(s, b.n), top);
    Cat(a.code, b.code, n, LastLabel(s1, a.n), a.n, LastLabel(s, b.n), top);
  }

  lemma LetFits(s: Stmt, c: Ctx, n: nat, top: nat)
    requires s.Let?
    requires FitsCtx(c, n) && EmitStmt(s, c, n).n <= top
    ensures Fits(EmitStmt(s, c, n).code, n, LastLabel(s, EmitStmt(s, c, n).n), top)
    decreases s, -1
  {
    UnfoldBlock(s, c, n);
    hide EmitStmt;
    hide EmitExpr;
    hide Fits;
    ExprGrows(s.e, c, n + 1);
    var a := EmitExpr(s.e, c, n + 1);
    var c1 := c.Declare(s.x, n + 1);
    StmtGrows(s.s, c1, a.n);
    var b := EmitStmt(s.s, c1, a.n);
    ExprFits(s.e, c, n + 1, top);
    StmtFits(s.s, c1, a.n, top);
    LetCodeFits(a, b.code, n, LastLabel(s.s, b.n), top);
  }

  lemma LetCodeFits(a: Emitted, code: Code, n: nat, hi: nat, top: nat)
    requires Fits(a.code, n + 1, a.n, top) && Fits(code, a.n, hi, top) && n < a.lvid <= a.n <= hi && a.n <= top
    ensures Fits([Stackalloc(n + 1)] + (a.code + ([Store(n + 1, a.lvid)] + code)), n, hi, top)
  {
    hide Fits;
    FlatFits([Store(n + 1, a.lvid)], a.n, top);
    FlatFits([Stackalloc(n + 1)], n, top);
    Cat([Store(n + 1, a.lvid)], code, a.n, a.n, a.n, hi, top);
    Cat(a.code, [Store(n + 1, a.lvid)] + code, n + 1, a.n, a.n, hi, top);
    Cat([Stackalloc(n + 1)], a.code + ([Store(n + 1, a.lvid)] + code), n, n, n + 1, hi, top);
  }

  lemma {:induction false} HandlerFits(s: Stmt, c: Ctx, n: nat, top: nat)
    requires s.OnFail?
    requires FitsCtx(c, n) && EmitStmt(s, c, n).n <= top
    ensures Fits(EmitStmt(s, c, n).code, n, EmitStmt(s, c, n).n + 1, top)
    decreases s, -1
  {
    UnfoldBlock(s, c, n);
    hide EmitStmt;
    hide EmitExpr;
    var c1 := InHandler(c, s.atomid, s.x, n);
    var n1 := FirstInHandler(s.atomid, n);
    StmtGrows(s.h, c1, n1);
    var a := EmitStmt(s.h, c1, n1);
    var c2 := c.With(s.atomid, n + 1);
    StmtGrows(s.s, c2, a.n + 1);
    var b := EmitStmt(s.s, c2, a.n + 1);
    StmtFits(s.h, c1, n1, top);
    StmtFits(s.s, c2, a.n + 1, top);
    OnFailFits(s.atomid, a, b, LastLabel(s.h, a.n), LastLabel(s.s, b.n), n, top);
  }

  lemma OnFailFits(atomid: nat, a: EmittedStmt, b: EmittedStmt, hi: nat, hi': nat, n: nat, top: nat)
    requires var n1 := FirstInHandler(atomid, n);
      Fits(a.code, n1, hi, top) && n1 <= a.n <= hi <= a.n + 1
    requires Fits(b.code, a.n + 1, hi', top) && a.n + 1 <= b.n <= hi' <= b.n + 1 && b.n <= top
    ensures Fits(MakeOnFail(atomid, a, b, n).code, n, b.n + 1, top)
  {
    hide Fits;
    EntranceFits(atomid, a.n + 1, n, top);
    var n1 := FirstInHandler(atomid, n);
    hide FirstInHandler;
    hide Entrance;
    var rest := [ScopeEnd, Jmp(b.n + 1), Label(a.n + 1)] + (b.code + [Label(b.n + 1), ScopeEnd]);
    ProtectedFits(a.n, b, hi', top);
    Cat(a.code, rest, n1, hi, a.n, b.n + 1, top);
    Cat(Entrance(atomid, n + 1), a.code + rest, n1, n1, n1, b.n + 1, top);
    Cat([ScopeBegin, Jmp(a.n + 1), Label(n + 1)], Entrance(atomid, n + 1) + (a.code + rest),
        n, n + 1, n1, b.n + 1, top);
  }

  lemma ProtectedFits(m: nat, b: EmittedStmt, hi: nat, top: nat)
    requires Fits(b.code, m + 1, hi, top) && m + 1 <= b.n <= hi <= b.n + 1
    ensures Fits([ScopeEnd, Jmp(b.n + 1), Label(m + 1)] + (b.code + [Label(b.n + 1), ScopeEnd]), m, b.n + 1, top)
  {
    hide Fits;
    ClosingFits(b.n, b.n, b.n + 1, top);
    ClosingFits(m, b.n + 1, b.n + 1, top);
    Cat(b.code, [Label(b.n + 1), ScopeEnd], m + 1, hi, b.n, b.n + 1, top);
    Cat([ScopeEnd, Jmp(b.n + 1), Label(m + 1)], b.code + [Label(b.n + 1), ScopeEnd], m, m + 1, m + 1, b.n + 1, top);
  }

  lemma EntranceFits(atomid: nat, over: nat, n: nat, top: nat)
    requires n + 2 <= top
    ensures Fits([ScopeBegin, Jmp(over), Label(n + 1)], n, n + 1, top)
    ensures var n1 := FirstInHandler(atomid, n);
      Fits(Entrance(atomid, n + 1), n1, n1, top)
  {
  }
}
