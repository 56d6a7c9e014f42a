// The label which ends a block with a handler has the id which the enclosing construct draws next. Here is exactly
// when a jump is caught by it.
module SharedLabels {
  import opened Isa
  import opened Jumps
  import opened Machine
  import opened Handlers
  import opened Source
  import opened Emitter
  import opened Layout
  import opened Untidy
  import opened Running
  import opened Dispatching
  import opened Correspondence
  import opened Branching
  import opened Expressions
  import opened Tails
  import opened Simple
  import opened Statements

  // The first label 'id' of a fragment made of a jump, a statement and its closing code
  lemma FirstLabel(head: Code, body: Code, f: nat, gap: Code, id: nat, rest: Code, from: nat)
    requires 0 < from <= |head| && forall i :: from <= i < |head| ==> head[i] != Label(id)
    requires Lands(body, f, id) && forall i :: 0 <= i < |gap| ==> gap[i] != Label(id)
    ensures var code := head + (body + (gap + ([Label(id)] + rest)));
      FindForward(code, from, id) == Some(|head| + if f < |body| then f else |body| + |gap|)
  {
    var code := head + (body + (gap + ([Label(id)] + rest)));
    var r := |head| + if f < |body| then f else |body| + |gap|;
    assert code[r] == Label(id);
    forall i | from <= i < r
      ensures code[i] != Label(id)
    {
      if i < |head| {
        assert code[i] == head[i];
      } else if i < |head| + |body| {
        assert code[i] == body[i - |head|];
      } else {
        assert code[i] == gap[i - |head| - |body|];
      }
    }
  }

  // If-else: the jump over the first branch reaches the label of the second one if and only if the first branch
  // does not end with a handler
  lemma ElseIsReached(c: Ctx, st: Stmt, n: nat, top: nat) returns (test: nat, labelElse: nat)
    requires st.IfElse? && FitsCtx(c, n) && EmitStmt(st, c, n).n <= top
    ensures var code := EmitStmt(st, c, n).code;
      var id := EmitStmt(st.t, c, EmitExpr(st.c, c, n + 1).n).n + 1;
      && test < labelElse < |code| && code[test] == Jz(n + 1, 0, id) && code[labelElse] == Label(id)
      && code[labelElse + 1..] == [ScopeBegin] + EmitStmt(st.f, c, id).code
        + [ScopeEnd, Label(EmitStmt(st.f, c, id).n + 1)]
      && (FindForward(code, test + 1, id) == Some(labelElse) <==> !EndsWithHandler(st.t))
  {
    hide *;
    UnfoldBranch(st, c, n);
    var a := EmitExpr(st.c, c, n + 1);
    var b := EmitStmt(st.t, c, a.n);
    var d := EmitStmt(st.f, c, b.n + 1);
    ExprGrows(st.c, c, n + 1);
    StmtGrows(st.t, c, a.n);
    StmtGrows(st.f, c, b.n + 1);
    BranchRoom(st, c, n, a, b, d, top);
    var f := StmtLands(st.t, c, a.n, top);
    LandsWithin(b.code, f, b.n + 1);
    test := |a.code| + 4;
    labelElse := test + 2 + |b.code| + 2;
    ElseFrom(a, b, d, f, n);
  }

  lemma LandsWithin(code: Code, f: nat, id: nat)
    requires Lands(code, f, id)
    ensures f <= |code|
  {
  }

  lemma BranchRoom(st: Stmt, c: Ctx, n: nat, a: Emitted, b: EmittedStmt, d: EmittedStmt, top: nat)
    requires FitsCtx(c, n) && n <= a.n <= b.n && b.n + 1 <= d.n && MakeIfElse(a, b, d, n).n <= top
    ensures FitsCtx(c, a.n) && b.n <= top
  {
  }

  lemma ElseFrom(a: Emitted, b: EmittedStmt, d: EmittedStmt, f: nat, n: nat)
    requires Lands(b.code, f, b.n + 1)
    ensures var code := MakeIfElse(a, b, d, n).code;
      var test := |a.code| + 4;
      var labelElse := test + 2 + |b.code| + 2;
      && labelElse < |code| && code[test] == Jz(n + 1, 0, b.n + 1) && code[labelElse] == Label(b.n + 1)
      && code[labelElse + 1..] == [ScopeBegin] + d.code + [ScopeEnd, Label(d.n + 1)]
      && (FindForward(code, test + 1, b.n + 1) == Some(labelElse) <==> f == |b.code|)
  {
    hide FindForward;
    hide Lands;
    var test := |a.code| + 4;
    var id := b.n + 1;
    var head := Condition(a, n + 1) + [Jz(n + 1, 0, id), ScopeBegin];
    var gap := [ScopeEnd, Jmp(d.n + 1)];
    var rest := [ScopeBegin] + d.code + [ScopeEnd, Label(d.n + 1)];
    assert MakeIfElse(a, b, d, n).code == head + (b.code + (gap + ([Label(id)] + rest)));
    LandsWithin(b.code, f, id);
    FirstLabel(head, b.code, f, gap, id, rest, test + 1);
  }

  // While: the jump out of the loop reaches the end of the loop if and only if the body does not end with a handler
  lemma EndOfLoopIsReached(c: Ctx, st: Stmt, n: nat, top: nat) returns (test: nat, labelEnd: nat)
    requires st.While? && FitsCtx(c, n) && EmitStmt(st, c, n).n <= top
    ensures var code := EmitStmt(st, c, n).code;
      var id := EmitStmt(st, c, n).n;
      && test < labelEnd == |code| - 2 && code[test] == Jz(n + 2, 0, id) && code[labelEnd] == Label(id)
      && (FindForward(code, test + 1, id) == Some(labelEnd) <==> !EndsWithHandler(st.s))
  {
    hide *;
    UnfoldBranch(st, c, n);
    var a := EmitExpr(st.c, c, n + 2);
    var b := EmitStmt(st.s, c, a.n);
    ExprGrows(st.c, c, n + 2);
    StmtGrows(st.s, c, a.n);
    LoopRoom(c, n, a, b, top);
    var f := StmtLands(st.s, c, a.n, top);
    LandsWithin(b.code, f, b.n + 1);
    test := |a.code| + 6;
    labelEnd := test + 2 + |b.code| + 2;
    LoopFrom(a, b, f, n);
  }

  lemma LoopRoom(c: Ctx, n: nat, a: Emitted, b: EmittedStmt, top: nat)
    requires FitsCtx(c, n) && n <= a.n <= b.n && MakeWhile(a, b, n).n <= top
    ensures FitsCtx(c, a.n) && b.n <= top && MakeWhile(a, b, n).n == b.n + 1
  {
  }

  lemma LoopFrom(a: Emitted, b: EmittedStmt, f: nat, n: nat)
    requires Lands(b.code, f, b.n + 1) && n + 1 <= b.n
    ensures var code := MakeWhile(a, b, n).code;
      var test := |a.code| + 6;
      var labelEnd := test + 2 + |b.code| + 2;
      && labelEnd == |code| - 2 && code[test] == Jz(n + 2, 0, b.n + 1) && code[labelEnd] == Label(b.n + 1)
      && (FindForward(code, test + 1, b.n + 1) == Some(labelEnd) <==> f == |b.code|)
  {
    hide FindForward;
    hide Lands;
    var test := |a.code| + 6;
    var id := b.n + 1;
    var head := [ScopeBegin, Label(n + 1)] + Condition(a, n + 2) + [Jz(n + 2, 0, id), ScopeBegin];
    assert MakeWhile(a, b, n).code == head + (b.code + ([ScopeEnd, Jmp(n + 1)] + ([Label(id)] + [ScopeEnd])));
    LandsWithin(b.code, f, id);
    FirstLabel(head, b.code, f, [ScopeEnd, Jmp(n + 1)], id, [ScopeEnd], test + 1);
  }

  // A block with a handler: the jump over the handler reaches the protected code if and only if the handler does
  // not end itself with a handler
  lemma ProtectedIsReached(c: Ctx, st: Stmt, n: nat, top: nat) returns (over: nat)
    requires st.OnFail? && FitsCtx(c, n) && EmitStmt(st, c, n).n <= top
    ensures var code := EmitStmt(st, c, n).code;
      var id := EmitStmt(st.h, InHandler(c, st.atomid, st.x, n), FirstInHandler(st.atomid, n)).n + 1;
      && 1 < over < |code| && code[1] == Jmp(id) && code[over] == Label(id)
      && code[over + 1..] == EmitStmt(st.s, c.With(st.atomid, n + 1), id).code
        + [Label(EmitStmt(st, c, n).n + 1), ScopeEnd]
      && (FindForward(code, 2, id) == Some(over) <==> !EndsWithHandler(st.h))
  {
    hide *;
    UnfoldBlock(st, c, n);
    var c1 := InHandler(c, st.atomid, st.x, n);
    var n1 := FirstInHandler(st.atomid, n);
    StmtGrows(st.h, c1, n1);
    var a := EmitStmt(st.h, c1, n1);
    var c2 := c.With(st.atomid, n + 1);
    StmtGrows(st.s, c2, a.n + 1);
    var b := EmitStmt(st.s, c2, a.n + 1);
    HandlerCtx(st, c, n);
    HandlerIds(st.atomid, n, a, b);
    var f := StmtLands(st.h, c1, n1, top);
    LandsWithin(a.code, f, a.n + 1);
    ProtectedFrom(st.atomid, a, b, f, n);
    over := 5 + |Entrance(st.atomid, n + 1)| + |a.code|;
  }

  lemma HandlerIds(atomid: nat, n: nat, a: EmittedStmt, b: EmittedStmt)
    ensures n + 1 <= FirstInHandler(atomid, n)
    ensures MakeOnFail(atomid, a, b, n).n == b.n
  {
  }

  lemma ProtectedFrom(atomid: nat, a: EmittedStmt, b: EmittedStmt, f: nat, n: nat)
    requires Lands(a.code, f, a.n + 1) && n + 1 <= a.n
    ensures var code := MakeOnFail(atomid, a, b, n).code;
      var over := 5 + |Entrance(atomid, n + 1)| + |a.code|;
      && over < |code| && code[1] == Jmp(a.n + 1) && code[over] == Label(a.n + 1)
      && code[over + 1..] == b.code + [Label(b.n + 1), ScopeEnd]
      && (FindForward(code, 2, a.n + 1) == Some(over) <==> f == |a.code|)
  {
    hide FindForward;
    hide Lands;
    LandsWithin(a.code, f, a.n + 1);
    var id := a.n + 1;
    var head := [ScopeBegin, Jmp(id), Label(n + 1)] + Entrance(atomid, n + 1);
    var gap := [ScopeEnd, Jmp(b.n + 1)];
    var rest := b.code + [Label(b.n + 1), ScopeEnd];
    assert MakeOnFail(atomid, a, b, n).code == head + (a.code + (gap + ([Label(id)] + rest)));
    FirstLabel(head, a.code, f, gap, id, rest, 2);
  }
}
