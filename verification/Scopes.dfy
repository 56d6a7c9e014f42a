// The scopes of the emitted code: each one which begins also ends, in the same expression or statement, and the scopes
// within it end before it does. So the walk which renumbers a block goes through the code of that block and no further.
module Scopes {
  import opened Isa
  import opened Handlers
  import opened Source
  import opened Emitter
  import opened Renumber

  // How many scopes are open after some code, 'depth' of them being open before; none of those may end in the code
  // before they are all counted
  function Height(code: Code, depth: nat): Option<nat> {
    if code == [] then Some(depth)
    else if code[0].ScopeBegin? then Height(code[1..], depth + 1)
    else if !code[0].ScopeEnd? then Height(code[1..], depth)
    else if depth == 0 then None
    else Height(code[1..], depth - 1)
  }

  // As many scopes as the ones which began and did not end yet, which are never less than none
  lemma {:induction false} HeightMeans(code: Code, depth: nat)
    ensures Height(code, depth).Some? <==> forall k :: 0 <= k <= |code| ==> depth + Unclosed(code[..k]) >= 0
    ensures Height(code, depth).Some? ==> Height(code, depth).value == depth + Unclosed(code)
    decreases |code|
  {
    assert code[..|code|] == code;
    if code != [] {
      var now := depth + if code[0].ScopeBegin? then 1 else if code[0].ScopeEnd? then -1 else 0;
      forall k | 0 < k <= |code|
        ensures depth + Unclosed(code[..k]) == now + Unclosed(code[1..][..k - 1])
      {
        assert code[..k][1..] == code[1..][..k - 1];
      }
      assert depth + Unclosed(code[..1]) == now + Unclosed(code[1..][..0]);
      if now >= 0 {
        HeightMeans(code[1..], now);
        forall k | 0 <= k <= |code[1..]|
          ensures now + Unclosed(code[1..][..k]) == depth + Unclosed(code[..k + 1])
        {
        }
      }
    }
  }

  // Every scope which begins in the code ends in it, and no other one does
  ghost predicate Nested(code: Code) { Height(code, 0) == Some(0) }

  lemma {:induction false} HeightCat(a: Code, b: Code, depth: nat)
    requires Height(a, depth).Some?
    ensures Height(a + b, depth) == Height(b, Height(a, depth).value)
    decreases |a|
  {
    if a == [] {
      assert a + b == b;
    } else {
      assert (a + b)[0] == a[0] && (a + b)[1..] == a[1..] + b;
      HeightCat(a[1..], b, if a[0].ScopeBegin? then depth + 1 else if a[0].ScopeEnd? then depth - 1 else depth);
    }
  }

  lemma {:induction false} HeightShift(a: Code, depth: nat, more: nat)
    requires Height(a, depth).Some?
    ensures Height(a, depth + more) == Some(Height(a, depth).value + more)
    decreases |a|
  {
    if a != [] {
      HeightShift(a[1..], if a[0].ScopeBegin? then depth + 1 else if a[0].ScopeEnd? then depth - 1 else depth, more);
    }
  }

  predicate IsFlat(code: Code) { forall i :: 0 <= i < |code| ==> !code[i].ScopeBegin? && !code[i].ScopeEnd? }

  lemma {:induction false} FlatHeight(code: Code, depth: nat)
    requires IsFlat(code)
    ensures Height(code, depth) == Some(depth)
    decreases |code|
  {
    if code != [] {
      FlatHeight(code[1..], depth);
    }
  }

  // ---- fragments ----

  // 'from' scopes are open before the fragment, and 'to' of them after it
  ghost predicate Goes(code: Code, from: nat, to: nat) { Height(code, from) == Some(to) }

  lemma GoesCat(a: Code, b: Code, from: nat, mid: nat, to: nat)
    requires Goes(a, from, mid) && Goes(b, mid, to)
    ensures Goes(a + b, from, to)
  {
    HeightCat(a, b, from);
  }

  lemma GoesIn(a: Code, depth: nat)
    requires Nested(a)
    ensures Goes(a, depth, depth)
  {
    HeightShift(a, 0, depth);
  }

  lemma GoesFlat(code: Code, depth: nat)
    requires IsFlat(code)
    ensures Goes(code, depth, depth)
  {
    FlatHeight(code, depth);
  }

  // Instructions, then the beginning of a scope
  lemma GoesBegin(a: Code, depth: nat)
    requires IsFlat(a)
    ensures Goes(a + [ScopeBegin], depth, depth + 1)
  {
    GoesFlat(a, depth);
    assert [ScopeBegin][1..] == [];
    GoesCat(a, [ScopeBegin], depth, depth, depth + 1);
  }

  // Instructions, the end of a scope, then instructions
  lemma GoesEnd(a: Code, b: Code, depth: nat)
    requires IsFlat(a) && IsFlat(b)
    ensures Goes(a + [ScopeEnd] + b, depth + 1, depth)
  {
    GoesFlat(a, depth + 1);
    GoesFlat(b, depth);
    assert [ScopeEnd][1..] == [];
    GoesCat(a, [ScopeEnd], depth + 1, depth + 1, depth);
    GoesCat(a + [ScopeEnd], b, depth + 1, depth, depth);
  }

  // ---- expressions ----

  lemma ConditionNested(a: Emitted, cond: nat)
    requires Nested(a.code)
    ensures Nested(Condition(a, cond))
  {
    GoesBegin([Stackalloc(cond)], 0);
    GoesIn(a.code, 1);
    GoesEnd([Store(cond, a.lvid)], [], 0);
    assert [Stackalloc(cond)] + [ScopeBegin] == [Stackalloc(cond), ScopeBegin];
    assert [Store(cond, a.lvid)] + [ScopeEnd] + [] == [Store(cond, a.lvid), ScopeEnd];
    hide Height;
    GoesCat(a.code, [Store(cond, a.lvid), ScopeEnd], 1, 1, 0);
    GoesCat([Stackalloc(cond), ScopeBegin], a.code + [Store(cond, a.lvid), ScopeEnd], 0, 1, 0);
  }

  lemma DispatchFlat(hs: Stack, id: nat)
    ensures IsFlat(Dispatch(hs, id))
  {
  }

  lemma CallNested(body: Code, op: Code, hs: Stack, n: nat, last: nat)
    requires Nested(body) && IsFlat(op)
    ensures Nested(MakeCall(body, op, hs, n, last).code)
  {
    hide Height;
    hide Dispatch;
    DispatchFlat(hs, last + 1);
    GoesBegin([Stackalloc(n + 1), Stackalloc(n + 2)], 0);
    GoesIn(body, 1);
    GoesEnd(op, Dispatch(hs, last + 1), 0);
    assert [Stackalloc(n + 1), Stackalloc(n + 2)] + [ScopeBegin] == CallHeader(n);
    var end := op + ([ScopeEnd] + Dispatch(hs, last + 1));
    assert op + [ScopeEnd] + Dispatch(hs, last + 1) == end;
    GoesCat(body, end, 1, 1, 0);
    GoesCat(CallHeader(n), body + end, 0, 1, 0);
  }

  lemma ShortNested(l: Emitted, r: Emitted, n: nat, both: bool, lazy: bool)
    requires Nested(l.code) && Nested(r.code)
    ensures Nested(EmitShortCircuit(l, r, n, both, lazy).code)
  {
    var id := r.n + 1;
    var jump := if both then Jz(l.lvid, n + 2, id) else Jnz(l.lvid, n + 2, id);
    var op := Binary(if both then BitAnd else BitOr, n + 2, l.lvid, r.lvid);
    var start := [Stackalloc(n + 1), Stackalloc(n + 2), Stackalloc(n + 3)];
    var room := [Stackalloc(id + 1), if lazy then jump else Nop, Nop];
    var last := [Stackalloc(id + 2), Store(n + 3, n + 2)];
    var end := [op, ScopeEnd, Label(id), ScopeEnd, Stackalloc(id + 2), Store(n + 3, n + 2)];
    assert start + [ScopeBegin] == [Stackalloc(n + 1), Stackalloc(n + 2), Stackalloc(n + 3), ScopeBegin];
    assert room + [ScopeBegin] == Room(lazy, id + 1, jump);
    assert [op] + [ScopeEnd] + [Label(id)] + ([] + [ScopeEnd] + last) == end;
    GoesBegin(start, 0);
    GoesIn(l.code, 1);
    GoesBegin(room, 1);
    GoesIn(r.code, 2);
    GoesEnd([op], [Label(id)], 1);
    GoesEnd([], last, 0);
    hide Height;
    GoesCat([op] + [ScopeEnd] + [Label(id)], [] + [ScopeEnd] + last, 2, 1, 0);
    GoesCat(r.code, end, 2, 2, 0);
    GoesCat(room + [ScopeBegin], r.code + end, 1, 2, 0);
    GoesCat(l.code, room + [ScopeBegin] + (r.code + end), 1, 1, 0);
    GoesCat(start + [ScopeBegin], l.code + (room + [ScopeBegin] + (r.code + end)), 0, 1, 0);
  }

  // A branch within its own scope
  lemma BranchNested(a: Code, body: Code, b: Code, rest: Code)
    requires IsFlat(a) && Nested(body) && IsFlat(b) && Nested(rest)
    ensures Nested(a + [ScopeBegin] + (body + (b + [ScopeEnd] + rest)))
  {
    GoesBegin(a, 0);
    GoesIn(body, 1);
    GoesEnd(b, [], 0);
    assert b + [ScopeEnd] + [] == b + [ScopeEnd];
    hide Height;
    GoesCat(b + [ScopeEnd], rest, 1, 0, 0);
    GoesCat(body, b + [ScopeEnd] + rest, 1, 1, 0);
    GoesCat(a + [ScopeBegin], body + (b + [ScopeEnd] + rest), 0, 1, 0);
  }

  lemma FlatNested(code: Code)
    requires IsFlat(code)
    ensures Nested(code)
  {
    FlatHeight(code, 0);
  }

  lemma NestedCat(a: Code, b: Code)
    requires Nested(a) && Nested(b)
    ensures Nested(a + b)
  {
    HeightCat(a, b, 0);
  }

  lemma BlockNested(code: Code)
    requires Nested(code)
    ensures Nested([ScopeBegin] + (code + [ScopeEnd]))
  {
    FlatNested([]);
    BranchNested([], code, [], []);
    assert [] + [ScopeBegin] + (code + ([] + [ScopeEnd] + [])) == [ScopeBegin] + (code + [ScopeEnd]);
  }

  lemma ChoiceNested(a: Emitted, b: Emitted, d: Emitted, n: nat)
    requires Nested(a.code) && Nested(b.code) && Nested(d.code)
    ensures Nested(MakeChoice(a, b, d, n).code)
  {
    var labelElse, labelEnd := b.n + 1, d.n + 1;
    var second := [Store(n + 1, d.lvid), ScopeEnd, Label(labelEnd)];
    var between := [Store(n + 1, b.lvid), ScopeEnd, Jmp(labelEnd), Label(labelElse), ScopeBegin];
    ConditionNested(a, n + 2);
    FlatNested([Stackalloc(n + 1)]);
    FlatNested([Label(labelEnd)]);
    BranchNested([Jmp(labelEnd), Label(labelElse)], d.code, [Store(n + 1, d.lvid)], [Label(labelEnd)]);
    assert [Store(n + 1, d.lvid)] + [ScopeEnd] + [Label(labelEnd)] == second;
    var rest := [Jmp(labelEnd), Label(labelElse)] + [ScopeBegin] + (d.code + second);
    BranchNested([Jz(n + 2, 0, labelElse)], b.code, [Store(n + 1, b.lvid)], rest);
    assert [Jz(n + 2, 0, labelElse)] + [ScopeBegin] == [Jz(n + 2, 0, labelElse), ScopeBegin];
    assert [Store(n + 1, b.lvid)] + [ScopeEnd] + rest == between + (d.code + second);
    hide Nested;
    var branches := [Jz(n + 2, 0, labelElse), ScopeBegin] + (b.code + (between + (d.code + second)));
    NestedCat(Condition(a, n + 2), branches);
    NestedCat([Stackalloc(n + 1)], Condition(a, n + 2) + branches);
  }

  lemma LeafNested(e: Expr, c: Ctx, n: nat)
    requires e.Const? || e.Var?
    ensures Nested(EmitExpr(e, c, n).code)
  {
    FlatNested(EmitExpr(e, c, n).code);
  }

  lemma OneFlat(i: Instr)
    requires !i.ScopeBegin? && !i.ScopeEnd?
    ensures IsFlat([i])
  {
  }

  lemma PushesFlat(lvids: seq<nat>, i: Instr)
    requires !i.ScopeBegin? && !i.ScopeEnd?
    ensures IsFlat(Pushes(lvids) + [i])
  {
  }

  lemma {:induction false} ExprNested(e: Expr, c: Ctx, n: nat)
    ensures Nested(EmitExpr(e, c, n).code)
    decreases e
  {
    hide *;
    UnfoldExpr(e, c, n);
    match e
    case Const(_) => LeafNested(e, c, n);
    case Var(_) => LeafNested(e, c, n);
    case Not(e1) =>
      var a := EmitExpr(e1, c, n + 2);
      ExprNested(e1, c, n + 2);
      OneFlat(Negation(n + 2, a.lvid));
      CallNested(a.code, [Negation(n + 2, a.lvid)], c.hs, n, a.n);
    case Bin(op, l, r) =>
      var a := EmitExpr(l, c, n + 2);
      var b := EmitExpr(r, c, a.n);
      ExprNested(l, c, n + 2);
      ExprNested(r, c, a.n);
      NestedCat(a.code, b.code);
      OneFlat(Binary(op, n + 2, a.lvid, b.lvid));
      CallNested(a.code + b.code, [Binary(op, n + 2, a.lvid, b.lvid)], c.hs, n, b.n);
    case Both(l, r, lazy) =>
      var a := EmitExpr(l, c, n + 3);
      ExprNested(l, c, n + 3);
      ExprNested(r, c, a.n);
      ShortNested(a, EmitExpr(r, c, a.n), n, true, lazy);
    case Either(l, r, lazy) =>
      var a := EmitExpr(l, c, n + 3);
      ExprNested(l, c, n + 3);
      ExprNested(r, c, a.n);
      ShortNested(a, EmitExpr(r, c, a.n), n, false, lazy);
    case Choice(cond, t, f) =>
      var a := EmitExpr(cond, c, n + 2);
      var b := EmitExpr(t, c, a.n);
      ExprNested(cond, c, n + 2);
      ExprNested(t, c, a.n);
      ExprNested(f, c, b.n + 1);
      ChoiceNested(a, b, EmitExpr(f, c, b.n + 1), n);
    case Apply(f, args) =>
      var a := EmitArgs(args, c, n + 2);
      ArgsNested(args, c, n + 2);
      PushesFlat(a.lvids, Call(n + 2, f));
      CallNested(a.code, Pushes(a.lvids) + [Call(n + 2, f)], c.hs, n, a.n);
  }

  lemma {:induction false} ArgsNested(args: Args, c: Ctx, n: nat)
    ensures Nested(EmitArgs(args, c, n).code)
    decreases args
  {
    match args
    case NoArgs =>
    case More(e, rest) =>
      var a := EmitExpr(e, c, n);
      ExprNested(e, c, n);
      ArgsNested(rest, c, a.n);
      hide Nested;
      NestedCat(a.code, EmitArgs(rest, c, a.n).code);
  }

  // ---- statements ----

  lemma IfNested(a: Emitted, b: EmittedStmt, n: nat)
    requires Nested(a.code) && Nested(b.code)
    ensures Nested(MakeIf(a, b, n).code)
  {
    var labelEnd := b.n + 1;
    ConditionNested(a, n + 1);
    FlatNested([Label(labelEnd)]);
    BranchNested([Jz(n + 1, 0, labelEnd)], b.code, [], [Label(labelEnd)]);
    assert [Jz(n + 1, 0, labelEnd)] + [ScopeBegin] == [Jz(n + 1, 0, labelEnd), ScopeBegin];
    assert [] + [ScopeEnd] + [Label(labelEnd)] == [ScopeEnd, Label(labelEnd)];
    hide Nested;
    NestedCat(Condition(a, n + 1), [Jz(n + 1, 0, labelEnd), ScopeBegin] + (b.code + [ScopeEnd, Label(labelEnd)]));
  }

  lemma IfElseNested(a: Emitted, b: EmittedStmt, d: EmittedStmt, n: nat)
    requires Nested(a.code) && Nested(b.code) && Nested(d.code)
    ensures Nested(MakeIfElse(a, b, d, n).code)
  {
    var labelElse, labelEnd := b.n + 1, d.n + 1;
    var second := [ScopeEnd, Label(labelEnd)];
    var between := [ScopeEnd, Jmp(labelEnd), Label(labelElse), ScopeBegin];
    ConditionNested(a, n + 1);
    FlatNested([Label(labelEnd)]);
    BranchNested([Jmp(labelEnd), Label(labelElse)], d.code, [], [Label(labelEnd)]);
    assert [] + [ScopeEnd] + [Label(labelEnd)] == second;
    var rest := [Jmp(labelEnd), Label(labelElse)] + [ScopeBegin] + (d.code + second);
    BranchNested([Jz(n + 1, 0, labelElse)], b.code, [], rest);
    assert [Jz(n + 1, 0, labelElse)] + [ScopeBegin] == [Jz(n + 1, 0, labelElse), ScopeBegin];
    assert [] + [ScopeEnd] + rest == between + (d.code + second);
    hide Nested;
    NestedCat(Condition(a, n + 1), [Jz(n + 1, 0, labelElse), ScopeBegin] + (b.code + (between + (d.code + second))));
  }

  lemma WhileShape(a: Emitted, b: EmittedStmt, n: nat, turn: Code)
    requires turn == [Jz(n + 2, 0, b.n + 1), ScopeBegin] + (b.code + [ScopeEnd, Jmp(n + 1), Label(b.n + 1)])
    ensures MakeWhile(a, b, n).code == [ScopeBegin] + ([Label(n + 1)] + (Condition(a, n + 2) + turn) + [ScopeEnd])
  {
    hide Condition;
    assert b.code + [ScopeEnd, Jmp(n + 1), Label(b.n + 1), ScopeEnd]
        == b.code + [ScopeEnd, Jmp(n + 1), Label(b.n + 1)] + [ScopeEnd];
  }

  lemma WhileNested(a: Emitted, b: EmittedStmt, n: nat)
    requires Nested(a.code) && Nested(b.code)
    ensures Nested(MakeWhile(a, b, n).code)
  {
    var labelEnd := b.n + 1;
    var jump := [Jmp(n + 1), Label(labelEnd)];
    ConditionNested(a, n + 2);
    FlatNested(jump);
    FlatNested([Label(n + 1)]);
    BranchNested([Jz(n + 2, 0, labelEnd)], b.code, [], jump);
    assert [Jz(n + 2, 0, labelEnd)] + [ScopeBegin] == [Jz(n + 2, 0, labelEnd), ScopeBegin];
    assert [] + [ScopeEnd] + jump == [ScopeEnd, Jmp(n + 1), Label(labelEnd)];
    var turn := [Jz(n + 2, 0, labelEnd), ScopeBegin] + (b.code + [ScopeEnd, Jmp(n + 1), Label(labelEnd)]);
    hide *;
    NestedCat(Condition(a, n + 2), turn);
    NestedCat([Label(n + 1)], Condition(a, n + 2) + turn);
    BlockNested([Label(n + 1)] + (Condition(a, n + 2) + turn));
    WhileShape(a, b, n, turn);
  }

  lemma DoWhileShape(b: EmittedStmt, a: Emitted, n: nat, cond: Code)
    requires cond == Condition(a, b.n + 1) + [Jnz(b.n + 1, 0, n + 1)]
    ensures MakeDoWhile(b, a, n).code
         == [ScopeBegin] + ([Label(n + 1)] + [ScopeBegin] + (b.code + ([] + [ScopeEnd] + cond)) + [ScopeEnd])
  {
    hide Condition;
    var last := Jnz(b.n + 1, 0, n + 1);
    assert [ScopeEnd] + (Condition(a, b.n + 1) + [last, ScopeEnd]) == [] + [ScopeEnd] + cond + [ScopeEnd];
  }

  lemma DoWhileNested(b: EmittedStmt, a: Emitted, n: nat)
    requires Nested(b.code) && Nested(a.code)
    ensures Nested(MakeDoWhile(b, a, n).code)
  {
    var cond := Condition(a, b.n + 1) + [Jnz(b.n + 1, 0, n + 1)];
    ConditionNested(a, b.n + 1);
    FlatNested([Jnz(b.n + 1, 0, n + 1)]);
    NestedCat(Condition(a, b.n + 1), [Jnz(b.n + 1, 0, n + 1)]);
    BranchNested([Label(n + 1)], b.code, [], cond);
    var body := [Label(n + 1)] + [ScopeBegin] + (b.code + ([] + [ScopeEnd] + cond));
    BlockNested(body);
    DoWhileShape(b, a, n, cond);
  }

  // What comes before the code of a handler: the jump over it, its label and perhaps the register of the error
  function HandlerHead(atomid: nat, over: nat, n: nat): Code {
    [Jmp(over), Label(n + 1)] + if atomid == 0 then [] else [Stackalloc(n + 2)]
  }

  lemma OnFailShape(atomid: nat, a: EmittedStmt, b: EmittedStmt, n: nat)
    ensures var over, exit := a.n + 1, b.n + 1;
      MakeOnFail(atomid, a, b, n).code
      == [ScopeBegin] + (HandlerHead(atomid, over, n) + [ScopeBegin]
                         + (a.code + ([] + [ScopeEnd] + ([Jmp(exit), Label(over)] + (b.code + [Label(exit)]))))
                         + [ScopeEnd])
  {
    var over, exit := a.n + 1, b.n + 1;
    assert [ScopeEnd, Jmp(exit), Label(over)] + (b.code + [Label(exit), ScopeEnd])
        == [] + [ScopeEnd] + ([Jmp(exit), Label(over)] + (b.code + [Label(exit)])) + [ScopeEnd];
    assert [ScopeBegin, Jmp(over), Label(n + 1)] + Entrance(atomid, n + 1)
        == [ScopeBegin] + (HandlerHead(atomid, over, n) + [ScopeBegin]);
  }

  lemma OnFailNested(atomid: nat, a: EmittedStmt, b: EmittedStmt, n: nat)
    requires Nested(a.code) && Nested(b.code)
    ensures Nested(MakeOnFail(atomid, a, b, n).code)
  {
    var over, exit := a.n + 1, b.n + 1;
    FlatNested([Label(exit)]);
    NestedCat(b.code, [Label(exit)]);
    FlatNested([Jmp(exit), Label(over)]);
    NestedCat([Jmp(exit), Label(over)], b.code + [Label(exit)]);
    var rest := [Jmp(exit), Label(over)] + (b.code + [Label(exit)]);
    BranchNested(HandlerHead(atomid, over, n), a.code, [], rest);
    BlockNested(HandlerHead(atomid, over, n) + [ScopeBegin] + (a.code + ([] + [ScopeEnd] + rest)));
    OnFailShape(atomid, a, b, n);
  }

  lemma OperationEnds(s: Stmt, c: Ctx, a: Emitted)
    ensures var op := Operation(s, c, a);
      |op| > 0 && IsFlat(op[..|op| - 1]) && op == op[..|op| - 1] + [ScopeEnd]
  {
  }

  lemma SimpleNested(s: Stmt, c: Ctx, n: nat)
    requires s.Eval? || s.Observe? || s.Return? || s.Throw?
    ensures Nested(EmitStmt(s, c, n).code)
  {
    hide *;
    var a := EmitExpr(s.e, c, n);
    var op := Operation(s, c, a);
    ExprNested(s.e, c, n);
    UnfoldSimple(s, c, n);
    OperationEnds(s, c, a);
    EnclosedNested(a, op[..|op| - 1], if s.Return? then a.n + 1 else a.n);
  }

  lemma EnclosedNested(a: Emitted, op: Code, n: nat)
    requires Nested(a.code) && IsFlat(op)
    ensures Nested(MakeSimple([ScopeBegin], a, op + [ScopeEnd], n).code)
  {
    FlatNested(op);
    NestedCat(a.code, op);
    BlockNested(a.code + op);
    assert a.code + op + [ScopeEnd] == a.code + (op + [ScopeEnd]);
  }

  lemma LetNested(n: nat, a: Code, store: Instr, b: Code)
    requires Nested(a) && Nested(b) && store.Store?
    ensures Nested([Stackalloc(n)] + (a + ([store] + b)))
  {
    FlatNested([Stackalloc(n)]);
    FlatNested([store]);
    NestedCat([store], b);
    NestedCat(a, [store] + b);
    NestedCat([Stackalloc(n)], a + ([store] + b));
  }

  // The scopes of every statement are well nested, whatever is in scope
  lemma {:induction false} StmtNested(s: Stmt, c: Ctx, n: nat)
    ensures Nested(EmitStmt(s, c, n).code)
    decreases s
  {
    hide *;
    UnfoldBlock(s, c, n);
    UnfoldSimple(s, c, n);
    UnfoldBranch(s, c, n);
    match s
    case Skip => SkipNested(c, n);
    case Block(s1) =>
      StmtNested(s1, c, n);
      BlockNested(EmitStmt(s1, c, n).code);
    case Seq(s1, s2) =>
      var a := EmitStmt(s1, c, n);
      StmtNested(s1, c, n);
      StmtNested(s2, c, a.n);
      NestedCat(a.code, EmitStmt(s2, c, a.n).code);
    case Let(x, e, s1) =>
      var a := EmitExpr(e, c, n + 1);
      ExprNested(e, c, n + 1);
      StmtNested(s1, c.Declare(x, n + 1), a.n);
      LetNested(n + 1, a.code, Store(n + 1, a.lvid), EmitStmt(s1, c.Declare(x, n + 1), a.n).code);
    case Assign(x, e) =>
      var a := EmitExpr(e, c, n + 2);
      ExprNested(e, c, n + 2);
      OneFlat(Store(c.Slot(x), a.lvid));
      CallNested(a.code, [Store(c.Slot(x), a.lvid)], c.hs, n, a.n);
    case Assert(e) =>
      var a := EmitExpr(e, c, n + 2);
      ExprNested(e, c, n + 2);
      OneFlat(Opassert(a.lvid));
      CallNested(a.code, [Opassert(a.lvid)], c.hs, n, a.n);
    case If(cond, t) =>
      var a := EmitExpr(cond, c, n + 1);
      ExprNested(cond, c, n + 1);
      StmtNested(t, c, a.n);
      IfNested(a, EmitStmt(t, c, a.n), n);
    case IfElse(cond, t, f) =>
      var a := EmitExpr(cond, c, n + 1);
      var b := EmitStmt(t, c, a.n);
      ExprNested(cond, c, n + 1);
      StmtNested(t, c, a.n);
      StmtNested(f, c, b.n + 1);
      IfElseNested(a, b, EmitStmt(f, c, b.n + 1), n);
    case While(cond, s1) =>
      var a := EmitExpr(cond, c, n + 2);
      ExprNested(cond, c, n + 2);
      StmtNested(s1, c, a.n);
      WhileNested(a, EmitStmt(s1, c, a.n), n);
    case DoWhile(s1, cond) =>
      var b := EmitStmt(s1, c, n + 1);
      StmtNested(s1, c, n + 1);
      ExprNested(cond, c, b.n + 1);
      DoWhileNested(b, EmitExpr(cond, c, b.n + 1), n);
    case OnFail(atomid, x, h, s1) =>
      var a := EmitStmt(h, InHandler(c, atomid, x, n), FirstInHandler(atomid, n));
      StmtNested(h, InHandler(c, atomid, x, n), FirstInHandler(atomid, n));
      StmtNested(s1, c.With(atomid, n + 1), a.n + 1);
      OnFailNested(atomid, a, EmitStmt(s1, c.With(atomid, n + 1), a.n + 1), n);
    case _ => SimpleNested(s, c, n);
  }

  lemma SkipNested(c: Ctx, n: nat)
    ensures Nested(EmitStmt(Skip, c, n).code)
  {
    FlatNested([]);
  }

  // ---- the renumbering of a block ----

  // The walk counts the scopes
  lemma {:induction false} WalkCounts(code: Code, from: nat, end: nat, depth: nat)
    requires from <= end <= |code| && Height(code[from..end], depth).Some?
    ensures BlockEnd(code, from, depth) == BlockEnd(code, end, Height(code[from..end], depth).value)
    decreases end - from
  {
    if from < end {
      assert code[from..end][1..] == code[from + 1..end];
      WalkCounts(code, from + 1, end,
                 if code[from].ScopeBegin? then depth + 1 else if code[from].ScopeEnd? then depth - 1 else depth);
    }
  }

  // From the beginning of a block, wherever it stands, exactly its code is renumbered
  lemma BlockRenumbered(s: Stmt, c: Ctx, n: nat, before: Code, after: Code, inc: nat, g: nat)
    ensures var body := EmitStmt(s, c, n).code;
      RenumberedFrom(before + EmitStmt(Block(s), c, n).code + after, inc, g, |before| + 1)
      == before + ([ScopeBegin] + (All(body, inc, g) + [ScopeEnd])) + after
  {
    hide *;
    StmtNested(s, c, n);
    UnfoldBlock(Block(s), c, n);
    BodyRenumbered(before, EmitStmt(s, c, n).code, after, inc, g);
  }

  lemma BodyRenumbered(before: Code, body: Code, after: Code, inc: nat, g: nat)
    requires Nested(body)
    ensures RenumberedFrom(before + ([ScopeBegin] + (body + [ScopeEnd])) + after, inc, g, |before| + 1)
         == before + ([ScopeBegin] + (All(body, inc, g) + [ScopeEnd])) + after
  {
    hide Renumbered;
    var code := before + ([ScopeBegin] + (body + [ScopeEnd])) + after;
    var from, end := |before| + 1, |before| + 1 + |body|;
    assert code[from..end] == body;
    WalkCounts(code, from, end, 0);
    assert code[end] == ScopeEnd;
  }
}
