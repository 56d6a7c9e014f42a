// Where a jump to the id which follows a statement lands: after it, or at the label which ends the statement. The id
// of the label which ends a block with a handler is drawn once its own scope is closed, and the enclosing construct
// draws it again. A statement which ends with such a block has one label more than its counter says.
module Tails {
  import opened Isa
  import opened Handlers
  import opened Source
  import opened Emitter
  import opened Layout
  import opened Running
  import opened Branching

  lemma {:induction false} NothingIsIdle(s: Stmt, c: Ctx, n: nat)
    requires DrawsNothing(s)
    ensures var r := EmitStmt(s, c, n);
      r.n == n && forall i :: 0 <= i < |r.code| ==> IsIdle(r.code[i]) && !r.code[i].Label?
    decreases s
  {
    UnfoldBlock(s, c, n);
    if s.Block? {
      NothingIsIdle(s.s, c, n);
    } else if s.Seq? {
      NothingIsIdle(s.a, c, n);
      NothingIsIdle(s.b, c, n);
    }
  }

  // The labels of the statement are below the id drawn next, but when it ends with a handler: then one of
  // them is this id, and nothing happens between the first such label and the end of the statement
  lemma {:induction false} StmtLands(s: Stmt, c: Ctx, n: nat, top: nat) returns (first: nat)
    requires FitsCtx(c, n) && EmitStmt(s, c, n).n <= top
    ensures Lands(EmitStmt(s, c, n).code, first, EmitStmt(s, c, n).n + 1)
    ensures first < |EmitStmt(s, c, n).code| <==> EndsWithHandler(s)
    decreases s, 1
  {
    hide *;
    if !HasTail(s) {
      first := SmallLands(s, c, n, top);
    } else if s.OnFail? {
      first := OnFailLands(s, c, n, top);
    } else if s.Block? {
      first := BlockLands(s, c, n, top);
    } else if s.Seq? {
      first := SeqLands(s, c, n, top);
    } else {
      TailIsLet(s);
      first := LetLands(s, c, n, top);
    }
  }

  function HasTail(s: Stmt): (r: bool)
    ensures r <==> EndsWithHandler(s)
  {
    EndsWithHandler(s)
  }

  lemma TailIsLet(s: Stmt)
    requires EndsWithHandler(s)
    ensures s.OnFail? || s.Block? || s.Seq? || s.Let?
  {
  }

  lemma SmallLands(s: Stmt, c: Ctx, n: nat, top: nat) returns (first: nat)
    requires FitsCtx(c, n) && EmitStmt(s, c, n).n <= top && !EndsWithHandler(s)
    ensures Lands(EmitStmt(s, c, n).code, first, EmitStmt(s, c, n).n + 1)
    ensures first == |EmitStmt(s, c, n).code|
  {
    hide EmitStmt;
    StmtFits(s, c, n, top);
    var r := EmitStmt(s, c, n);
    first := |r.code|;
  }

  // The labels of a prefix are smaller
  lemma PrefixLands(a: Code, lo: nat, hi: nat, top: nat, b: Code, f: nat, id: nat) returns (first: nat)
    requires Fits(a, lo, hi, top) && hi < id && Lands(b, f, id)
    ensures Lands(a + b, first, id) && (f < |b| <==> first < |a + b|)
  {
    first := |a| + f;
    LandsBefore(a, b, f, id);
  }

  // Idle code follows
  lemma SuffixLands(a: Code, first: nat, b: Code, id: nat)
    requires Lands(a, first, id) && first < |a| && forall i :: 0 <= i < |b| ==> IsIdle(b[i])
    ensures Lands(a + b, first, id)
  {
  }

  lemma BlockLands(s: Stmt, c: Ctx, n: nat, top: nat) returns (first: nat)
    requires s.Block? && EndsWithHandler(s) && FitsCtx(c, n) && EmitStmt(s, c, n).n <= top
    ensures Lands(EmitStmt(s, c, n).code, first, EmitStmt(s, c, n).n + 1) && first < |EmitStmt(s, c, n).code|
    decreases s, 0
  {
    UnfoldBlock(s, c, n);
    hide EmitStmt;
    hide FitsCtx;
    var a := EmitStmt(s.s, c, n);
    var f := StmtLands(s.s, c, n, top);
    FlatFits([ScopeBegin], n, top);
    SuffixLands(a.code, f, [ScopeEnd], a.n + 1);
    StmtGrows(s.s, c, n);
    hide Lands;
    first := PrefixLands([ScopeBegin], n, n, top, a.code + [ScopeEnd], f, a.n + 1);
  }

  lemma SeqLands(s: Stmt, c: Ctx, n: nat, top: nat) returns (first: nat)
    requires s.Seq? && EndsWithHandler(s) && FitsCtx(c, n) && EmitStmt(s, c, n).n <= top
    ensures Lands(EmitStmt(s, c, n).code, first, EmitStmt(s, c, n).n + 1) && first < |EmitStmt(s, c, n).code|
    decreases s, 0
  {
    UnfoldBlock(s, c, n);
    hide EmitStmt;
    var a := EmitStmt(s.a, c, n);
    var b := EmitStmt(s.b, c, a.n);
    StmtGrows(s.a, c, n);
    StmtGrows(s.b, c, a.n);
    if EndsWithHandler(s.b) {
      var f := StmtLands(s.b, c, a.n, top);
      StmtFits(s.a, c, n, top);
      TailDraws(s.b);
      hide Lands;
      first := PrefixLands(a.code, n, LastLabel(s.a, a.n), top, b.code, f, b.n + 1);
    } else {
      first := StmtLands(s.a, c, n, top);
      NothingIsIdle(s.b, c, a.n);
      hide Lands;
      SuffixLands(a.code, first, b.code, a.n + 1);
    }
  }

  lemma {:induction false} TailDraws(s: Stmt)
    requires EndsWithHandler(s)
    ensures !DrawsNothing(s)
    decreases s
  {
    match s
    case Block(s1) => TailDraws(s1);
    case Seq(a, b) => if EndsWithHandler(b) { TailDraws(b); } else { TailDraws(a); }
    case _ =>
  }

  lemma LetLands(s: Stmt, c: Ctx, n: nat, top: nat) returns (first: nat)
    requires s.Let? && EndsWithHandler(s) && FitsCtx(c, n) && EmitStmt(s, c, n).n <= top
    ensures Lands(EmitStmt(s, c, n).code, first, EmitStmt(s, c, n).n + 1) && first < |EmitStmt(s, c, n).code|
    decreases s, 0
  {
    UnfoldBlock(s, c, n);
    hide EmitStmt;
    hide EmitExpr;
    var c1 := c.Declare(s.x, n + 1);
    ExprGrows(s.e, c, n + 1);
    var a := EmitExpr(s.e, c, n + 1);
    StmtGrows(s.s, c1, a.n);
    var b := EmitStmt(s.s, c1, a.n);
    var f := StmtLands(s.s, c1, a.n, top);
    ExprFits(s.e, c, n + 1, top);
    first := LetTail(a, b.code, f, b.n + 1, n, top);
  }

  lemma LetTail(a: Emitted, code: Code, f: nat, id: nat, n: nat, top: nat) returns (first: nat)
    requires Fits(a.code, n + 1, a.n, top) && n < a.n < id && a.lvid <= top && a.n <= top && Lands(code, f, id)
    requires f < |code|
    ensures var r := [Stackalloc(n + 1)] + (a.code + ([Store(n + 1, a.lvid)] + code));
      Lands(r, first, id) && first < |r|
  {
    FlatFits([Store(n + 1, a.lvid)], a.n, top);
    FlatFits([Stackalloc(n + 1)], n, top);
    hide Fits;
    hide Lands;
    first := PrefixLands([Store(n + 1, a.lvid)], a.n, a.n, top, code, f, id);
    first := PrefixLands(a.code, n + 1, a.n, top, [Store(n + 1, a.lvid)] + code, first, id);
    first := PrefixLands([Stackalloc(n + 1)], n, n, top, a.code + ([Store(n + 1, a.lvid)] + code), first, id);
  }

  lemma OnFailLands(s: Stmt, c: Ctx, n: nat, top: nat) returns (first: nat)
    requires s.OnFail? && FitsCtx(c, n) && EmitStmt(s, c, n).n <= top
    ensures Lands(EmitStmt(s, c, n).code, first, EmitStmt(s, c, n).n + 1) && first < |EmitStmt(s, c, n).code|
    decreases s, 0
  {
    hide *;
    UnfoldBlock(s, c, n);
    HandlerCtx(s, c, n);
    var c1 := InHandler(c, s.atomid, s.x, n);
    var n1 := FirstInHandler(s.atomid, n);
    StmtGrows(s.h, c1, n1);
    var a := EmitStmt(s.h, c1, n1);
    var c2 := c.With(s.atomid, n + 1);
    StmtGrows(s.s, c2, a.n + 1);
    var b := EmitStmt(s.s, c2, a.n + 1);
    OnFailCode(s.atomid, a, b, n);
    ProtectedCtx(s, c, n, a.n + 1);
    LastLabelBound(s.h, a.n);
    var f := StmtLands(s.s, c2, a.n + 1, top);
    StmtFits(s.h, c1, n1, top);
    first := OnFailTail(s.atomid, a, b, f, n, LastLabel(s.h, a.n), top);
  }

  lemma HandlerCtx(s: Stmt, c: Ctx, n: nat)
    requires s.OnFail? && FitsCtx(c, n)
    ensures FitsCtx(InHandler(c, s.atomid, s.x, n), FirstInHandler(s.atomid, n))
  {
  }

  lemma ProtectedCtx(s: Stmt, c: Ctx, n: nat, m: nat)
    requires s.OnFail? && FitsCtx(c, n) && n + 2 <= m
    ensures FitsCtx(c.With(s.atomid, n + 1), m)
  {
  }

  lemma LastLabelBound(s: Stmt, n: nat)
    ensures n <= LastLabel(s, n) <= n + 1 && (!EndsWithHandler(s) ==> LastLabel(s, n) == n)
  {
  }

  // The end of a block with a handler
  lemma ProtectedTail(m: nat, b: EmittedStmt, f: nat, top: nat) returns (first: nat)
    requires Lands(b.code, f, b.n + 1) && m + 1 <= b.n
    ensures var code := [ScopeEnd, Jmp(b.n + 1), Label(m + 1)] + (b.code + [Label(b.n + 1), ScopeEnd]);
      Lands(code, first, b.n + 1) && first < |code|
  {
    var id := b.n + 1;
    assert b.code + [Label(id), ScopeEnd] == b.code + ([] + ([Label(id)] + [ScopeEnd]));
    first := LandsClosed(b.code, f, [], id, [ScopeEnd]);
    ClosingFits(m, id, id, top);
    hide Fits;
    hide Lands;
    first := PrefixLands([ScopeEnd, Jmp(id), Label(m + 1)], m, m + 1, top, b.code + [Label(id), ScopeEnd], first, id);
  }

  lemma OnFailCode(atomid: nat, a: EmittedStmt, b: EmittedStmt, n: nat)
    ensures MakeOnFail(atomid, a, b, n).code
         == [ScopeBegin, Jmp(a.n + 1), Label(n + 1)]
            + (Entrance(atomid, n + 1)
               + (a.code + ([ScopeEnd, Jmp(b.n + 1), Label(a.n + 1)] + (b.code + [Label(b.n + 1), ScopeEnd]))))
    ensures MakeOnFail(atomid, a, b, n).n == b.n
    ensures n + 1 <= FirstInHandler(atomid, n) <= n + 2
    ensures |Entrance(atomid, n + 1)| == if atomid == 0 then 1 else 2
  {
  }

  lemma OnFailTail(atomid: nat, a: EmittedStmt, b: EmittedStmt, f: nat, n: nat, hi: nat, top: nat) returns (first: nat)
    requires var n1 := FirstInHandler(atomid, n);
      Fits(a.code, n1, hi, top) && n1 <= a.n <= hi <= a.n + 1 <= b.n <= top
    requires Lands(b.code, f, b.n + 1)
    ensures var code := MakeOnFail(atomid, a, b, n).code;
      Lands(code, first, b.n + 1) && first < |code|
  {
    hide *;
    OnFailCode(atomid, a, b, n);
    EntranceFits(atomid, a.n + 1, n, top);
    first := ProtectedTail(a.n, b, f, top);
    var rest := [ScopeEnd, Jmp(b.n + 1), Label(a.n + 1)] + (b.code + [Label(b.n + 1), ScopeEnd]);
    var n1 := FirstInHandler(atomid, n);
    first := PrefixLands(a.code, n1, hi, top, rest, first, b.n + 1);
    first := PrefixLands(Entrance(atomid, n + 1), n1, n1, top, a.code + rest, first, b.n + 1);
    first := PrefixLands([ScopeBegin, Jmp(a.n + 1), Label(n + 1)], n, n + 1, top,
                         Entrance(atomid, n + 1) + (a.code + rest), first, b.n + 1);
  }
}
