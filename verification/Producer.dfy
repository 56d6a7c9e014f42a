// The producer of code: it appends instructions to a sequence, draws ids from its counter, opens and closes the scopes
// of calls, branches, loops and handlers, and fills the labels of the jumps once they are known. What it appends is the
// code of its specification.
module Producer {
  import opened Isa
  import opened Handlers
  import opened Source
  import opened Emitter

  lemma Cat3(a: Code, b: Code, c: Code)
    ensures a + (b + c) == a + b + c
  {
  }

  lemma Cat4(a: Code, b: Code, c: Code, d: Code)
    ensures a + (b + (c + d)) == a + b + c + d
  {
    Cat3(a, b, c + d);
    Cat3(a + b, c, d);
  }

  lemma Cat5(a: Code, b: Code, c: Code, d: Code, e: Code)
    ensures a + (b + (c + (d + e))) == a + b + c + d + e
  {
    Cat3(a, b, c + (d + e));
    Cat4(a + b, c, d, e);
  }

  lemma Cat6(a: Code, b: Code, c: Code, d: Code, e: Code, f: Code)
    ensures a + (b + (c + (d + (e + f)))) == a + b + c + d + e + f
  {
    Cat3(a, b, c + (d + (e + f)));
    Cat5(a + b, c, d, e, f);
  }

  lemma Cat7(a: Code, b: Code, c: Code, d: Code, e: Code, f: Code, g: Code)
    ensures a + (b + (c + (d + (e + (f + g))))) == a + b + c + d + e + f + g
  {
    Cat3(a, b, c + (d + (e + (f + g))));
    Cat6(a + b, c, d, e, f, g);
  }

  // An instruction is overwritten between what comes before and what comes after
  lemma Overwrite(before: Code, i: Instr, after: Code, x: Instr)
    ensures |before| < |before + ([i] + after)|
    ensures (before + ([i] + after))[|before| := x] == before + ([x] + after)
  {
  }

  class Scope {
    var code: Code
    var nextVarID: nat

    constructor (n: nat)
      ensures code == [] && nextVarID == n
    {
      code, nextVarID := [], n;
    }

    method NextVar() returns (id: nat)
      modifies this`nextVarID
      ensures id == nextVarID == old(nextVarID) + 1
    {
      nextVarID := nextVarID + 1;
      id := nextVarID;
    }

    method Append(frag: Code)
      modifies this`code
      ensures code == old(code) + frag
    {
      code := code + frag;
    }

    method Alloc() returns (lvid: nat)
      modifies this`code, this`nextVarID
      ensures lvid == nextVarID == old(nextVarID) + 1 && code == old(code) + [Stackalloc(lvid)]
    {
      lvid := NextVar();
      Append([Stackalloc(lvid)]);
    }

    method PutLabel() returns (id: nat)
      modifies this`code, this`nextVarID
      ensures id == nextVarID == old(nextVarID) + 1 && code == old(code) + [Label(id)]
    {
      id := NextVar();
      Append([Label(id)]);
    }

    // The instruction at 'offset' gets its final form
    method Update(offset: nat, x: Instr, ghost before: Code, ghost i: Instr, ghost after: Code)
      requires code == before + ([i] + after) && offset == |before|
      modifies this`code
      ensures code == before + ([x] + after)
    {
      Overwrite(before, i, after, x);
      code := code[offset := x];
    }

    // The code of an expression was appended
    ghost predicate Produced(before: Code, e: Emitted, lvid: nat)
      reads this
    {
      code == before + e.code && nextVarID == e.n && lvid == e.lvid
    }

    method VisitExpr(e: Expr, c: Ctx) returns (lvid: nat)
      modifies this
      ensures Produced(old(code), EmitExpr(e, c, old(nextVarID)), lvid)
      decreases e, 1
    {
      match e {
        case Const(_) => lvid := VisitWord(e, c);
        case Var(_) => lvid := VisitWord(e, c);
        case Not(_) => lvid := VisitNot(e, c);
        case Bin(_, _, _) => lvid := VisitBin(e, c);
        case Both(_, _, _) => lvid := EmitShortCircuitFuncCall(e, c);
        case Either(_, _, _) => lvid := EmitShortCircuitFuncCall(e, c);
        case Choice(_, _, _) => lvid := GenerateIfExpr(e, c);
        case Apply(_, _) => lvid := EmitFuncCall(e, c);
      }
    }

    method VisitWord(e: Expr, c: Ctx) returns (lvid: nat)
      requires e.Const? || e.Var?
      modifies this
      ensures Produced(old(code), EmitExpr(e, c, old(nextVarID)), lvid)
      decreases e, 0
    {
      lvid := Alloc();
      Append([if e.Const? then StoreConst(lvid, e.k) else Store(lvid, c.Slot(e.x))]);
    }

    // The function and its result, then the scope of the parameters
    method OpenCall() returns (callret: nat)
      modifies this
      ensures callret == nextVarID == old(nextVarID) + 2 && code == old(code) + CallHeader(old(nextVarID))
    {
      var functor := Alloc();
      callret := Alloc();
      Append([ScopeBegin]);
    }

    method CloseCall(op: Code, hs: Stack, ghost before: Code, ghost n: nat, ghost body: Code)
      requires code == before + CallHeader(n) + body
      modifies this
      ensures code == before + MakeCall(body, op, hs, n, old(nextVarID)).code && nextVarID == old(nextVarID) + 1
    {
      hide Dispatch;
      hide CallHeader;
      Append(op);
      Append([ScopeEnd]);
      var id := NextVar();
      Append(Dispatch(hs, id));
      Cat6(before, CallHeader(n), body, op, [ScopeEnd], Dispatch(hs, id));
    }

    method VisitNot(e: Expr, c: Ctx) returns (lvid: nat)
      requires e.Not?
      modifies this
      ensures Produced(old(code), EmitExpr(e, c, old(nextVarID)), lvid)
      decreases e, 0
    {
      hide EmitExpr;
      hide Dispatch;
      hide CallHeader;
      ghost var before, n := code, nextVarID;
      UnfoldExpr(e, c, n);
      lvid := OpenCall();
      var a := VisitExpr(e.e, c);
      CloseCall([Negation(lvid, a)], c.hs, before, n, EmitExpr(e.e, c, n + 2).code);
    }

    method VisitBin(e: Expr, c: Ctx) returns (lvid: nat)
      requires e.Bin?
      modifies this
      ensures Produced(old(code), EmitExpr(e, c, old(nextVarID)), lvid)
      decreases e, 0
    {
      hide EmitExpr;
      hide Dispatch;
      hide CallHeader;
      ghost var before, n := code, nextVarID;
      UnfoldExpr(e, c, n);
      lvid := OpenCall();
      var a := VisitExpr(e.l, c);
      ghost var l := EmitExpr(e.l, c, n + 2);
      var b := VisitExpr(e.r, c);
      ghost var r := EmitExpr(e.r, c, l.n);
      Cat3(before + CallHeader(n), l.code, r.code);
      CloseCall([Binary(e.op, lvid, a, b)], c.hs, before, n, l.code + r.code);
    }

    method EmitFuncCall(e: Expr, c: Ctx) returns (lvid: nat)
      requires e.Apply?
      modifies this
      ensures Produced(old(code), EmitExpr(e, c, old(nextVarID)), lvid)
      decreases e, 0
    {
      hide EmitExpr;
      hide EmitArgs;
      hide Dispatch;
      hide CallHeader;
      hide Pushes;
      ghost var before, n := code, nextVarID;
      UnfoldExpr(e, c, n);
      lvid := OpenCall();
      var lvids := VisitCallParameters(e.args, c);
      CloseCall(Pushes(lvids) + [Call(lvid, e.f)], c.hs, before, n, EmitArgs(e.args, c, n + 2).code);
    }

    // The parameters of a call, from left to right
    method VisitCallParameters(args: Args, c: Ctx) returns (lvids: seq<nat>)
      modifies this
      ensures var a := EmitArgs(args, c, old(nextVarID));
        code == old(code) + a.code && nextVarID == a.n && lvids == a.lvids
      decreases args, 2
    {
      hide EmitExpr;
      hide EmitArgs;
      var child := args;
      lvids := [];
      ghost var all := EmitArgs(args, c, nextVarID);
      assert old(code) + all.code == code + all.code;
      while child.More?
        invariant child == args || child < args
        invariant code + EmitArgs(child, c, nextVarID).code == old(code) + all.code
        invariant EmitArgs(child, c, nextVarID).n == all.n
        invariant lvids + EmitArgs(child, c, nextVarID).lvids == all.lvids
        decreases child
      {
        ghost var now, n := code, nextVarID;
        UnfoldArgs(child, c, n);
        var lvid := VisitExpr(child.e, c);
        ghost var a := EmitExpr(child.e, c, n);
        ghost var b := EmitArgs(child.rest, c, a.n);
        Cat3(now, a.code, b.code);
        assert lvids + ([a.lvid] + b.lvids) == lvids + [a.lvid] + b.lvids;
        lvids := lvids + [lvid];
        child := child.rest;
      }
      UnfoldArgs(child, c, nextVarID);
    }

    method EmitShortCircuitFuncCall(e: Expr, c: Ctx) returns (callret: nat)
      requires e.Both? || e.Either?
      modifies this
      ensures Produced(old(code), EmitExpr(e, c, old(nextVarID)), callret)
      decreases e, 0
    {
      hide EmitExpr;
      ghost var before, n := code, nextVarID;
      UnfoldExpr(e, c, n);
      var functor := Alloc();
      var retbool := Alloc();
      callret := Alloc();
      Append([ScopeBegin]);
      ghost var head := [Stackalloc(functor), Stackalloc(retbool), Stackalloc(callret), ScopeBegin];
      assert code == before + head;
      var first := VisitExpr(e.l, c);
      ghost var l := EmitExpr(e.l, c, n + 3);
      // room for a jump, should the first operand be enough; its label is not known yet
      var offset := |code|;
      Append([Stackalloc(0), Nop, Nop, ScopeBegin]);
      var second := VisitExpr(e.r, c);
      ghost var r := EmitExpr(e.r, c, l.n);
      ghost var rest := CloseShortCircuit(offset, e.Both?, e.lazy, first, second, retbool, callret, before + head
                                          + l.code,
                                          r.code);
      Cat4(before, head, l.code, rest);
    }

    // The second operand is done: the label of the operator is known
    method CloseShortCircuit(offset: nat, both: bool, lazy: bool, first: nat, second: nat, retbool: nat, callret: nat,
                             ghost base: Code, ghost r: Code) returns (ghost rest: Code)
      requires code == base + [Stackalloc(0), Nop, Nop, ScopeBegin] + r && offset == |base|
      modifies this
      ensures code == base + rest && nextVarID == old(nextVarID) + 3
      ensures var id := old(nextVarID) + 1;
        var jump := if both then Jz(first, retbool, id) else Jnz(first, retbool, id);
        rest == Room(lazy, id + 1, jump)
                + (r + [Binary(if both then BitAnd else BitOr, retbool, first, second), ScopeEnd,
                        Label(id), ScopeEnd, Stackalloc(id + 2), Store(callret, retbool)])
    {
      Append([Binary(if both then BitAnd else BitOr, retbool, first, second), ScopeEnd]);
      var id := PutLabel();
      var temp := NextVar();
      Append([ScopeEnd]);
      var size := Alloc();
      Append([Store(callret, retbool)]);
      ghost var tail := [Binary(if both then BitAnd else BitOr, retbool, first, second), ScopeEnd,
                         Label(id), ScopeEnd, Stackalloc(size), Store(callret, retbool)];
      ShortTail(base + [Stackalloc(0), Nop, Nop, ScopeBegin] + r, tail, code);
      Cat4(base, [Stackalloc(0), Nop, Nop, ScopeBegin], r, tail);
      FillRoom(offset, temp, lazy, if both then Jz(first, retbool, id) else Jnz(first, retbool, id), base, r + tail);
      rest := Room(lazy, temp, if both then Jz(first, retbool, id) else Jnz(first, retbool, id)) + (r + tail);
    }

    // The room made before the second operand gets its register, then its jump if the analyser has found booleans
    method FillRoom(offset: nat, temp: nat, lazy: bool, jump: Instr, ghost base: Code, ghost after: Code)
      requires code == base + ([Stackalloc(0), Nop, Nop, ScopeBegin] + after) && offset == |base|
      modifies this`code
      ensures code == base + (Room(lazy, temp, jump) + after)
    {
      ghost var more := [Nop, ScopeBegin] + after;
      RoomSplit(Stackalloc(0), Nop, after);
      Update(offset, Stackalloc(temp), base, Stackalloc(0), [Nop] + more);
      Cat3(base, [Stackalloc(temp)], [Nop] + more);
      if lazy {
        Update(offset + 1, jump, base + [Stackalloc(temp)], Nop, more);
      }
      Cat3(base, [Stackalloc(temp)], [if lazy then jump else Nop] + more);
      RoomSplit(Stackalloc(temp), if lazy then jump else Nop, after);
    }

    // A condition is evaluated within its own scope
    method VisitCondition(cond: Expr, c: Ctx, condlvid: nat)
      modifies this
      ensures var a := EmitExpr(cond, c, old(nextVarID));
        code == old(code) + Condition(a, condlvid) && nextVarID == a.n
      decreases cond, 2
    {
      hide EmitExpr;
      ghost var before, n := code, nextVarID;
      Append([Stackalloc(condlvid), ScopeBegin]);
      var lvid := VisitExpr(cond, c);
      Append([Store(condlvid, lvid), ScopeEnd]);
      Cat4(before, [Stackalloc(condlvid), ScopeBegin], EmitExpr(cond, c, n).code, [Store(condlvid, lvid), ScopeEnd]);
    }

    method GenerateIfExpr(e: Expr, c: Ctx) returns (ifret: nat)
      requires e.Choice?
      modifies this
      ensures Produced(old(code), EmitExpr(e, c, old(nextVarID)), ifret)
      decreases e, 0
    {
      hide EmitExpr;
      hide Condition;
      hide MakeChoice;
      ghost var before, n := code, nextVarID;
      UnfoldExpr(e, c, n);
      ifret := Alloc();
      var condlvid := NextVar();
      VisitCondition(e.c, c, condlvid);
      ghost var a := EmitExpr(e.c, c, n + 2);
      ghost var base := code;
      var opOffJz := |code|;
      Append([Jz(condlvid, 0, 0), ScopeBegin]);
      var thenlvid := VisitExpr(e.t, c);
      ghost var b := EmitExpr(e.t, c, a.n);
      Append([Store(ifret, thenlvid), ScopeEnd]);
      VisitElseExpr(e.e, c, ifret, opOffJz, condlvid, base, b.code, [Store(ifret, thenlvid), ScopeEnd]);
      ChoiceCode(before, n, a, b, EmitExpr(e.e, c, b.n + 1), base, code);
    }

    // The second branch, then the labels of both are put in their jumps
    method VisitElseExpr(e: Expr, c: Ctx, ifret: nat, opOffJz: nat, condlvid: nat, ghost base: Code,
                         ghost b: Code, ghost endThen: Code)
      requires code == base + [Jz(condlvid, 0, 0), ScopeBegin] + b + endThen && opOffJz == |base|
      modifies this
      ensures var labelElse := old(nextVarID) + 1;
        var d := EmitExpr(e, c, labelElse);
        && nextVarID == d.n + 1
        && code == (base + [Jz(condlvid, 0, labelElse)] + ([ScopeBegin] + (b + endThen)))
                   + ([Jmp(d.n + 1)]
                      + ([Label(labelElse), ScopeBegin] + (d.code + [Store(ifret, d.lvid), ScopeEnd, Label(d.n + 1)])))
      decreases e, 2
    {
      hide EmitExpr;
      var opOffIntermediateEnd := |code|;
      Append([Jmp(0)]);
      var labelElse := PutLabel();
      Append([ScopeBegin]);
      var elselvid := VisitExpr(e, c);
      ghost var d := EmitExpr(e, c, labelElse);
      Append([Store(ifret, elselvid), ScopeEnd]);
      var labelEnd := PutLabel();
      ghost var last := [Store(ifret, elselvid), ScopeEnd, Label(labelEnd)];
      assert last[..2] == [Store(ifret, elselvid), ScopeEnd];
      FillBranch(opOffJz, opOffIntermediateEnd, condlvid, labelElse, labelEnd, base, b, endThen, d.code, last);
    }

    // The labels of both branches are known
    method FillBranch(opOffJz: nat, opOffIntermediateEnd: nat, condlvid: nat, labelElse: nat, labelEnd: nat,
                      ghost base: Code, ghost b: Code, ghost endThen: Code, ghost d: Code, ghost endElse: Code)
      requires |endElse| > 1
      requires code == base + [Jz(condlvid, 0, 0), ScopeBegin] + b + endThen + [Jmp(0)] + [Label(labelElse)]
          + [ScopeBegin]
                       + d + endElse[..|endElse| - 1] + [endElse[|endElse| - 1]]
      requires opOffJz == |base| && opOffIntermediateEnd == |base + [Jz(condlvid, 0, 0), ScopeBegin] + b + endThen|
      modifies this`code
      ensures code == (base + [Jz(condlvid, 0, labelElse)] + ([ScopeBegin] + (b + endThen)))
                      + ([Jmp(labelEnd)] + ([Label(labelElse), ScopeBegin] + (d + endElse)))
    {
      ghost var left, right := [ScopeBegin] + (b + endThen), [Label(labelElse), ScopeBegin] + (d + endElse);
      BranchCode(base, Jz(condlvid, 0, 0), b, endThen, Jmp(0), Label(labelElse), d, endElse, code);
      Update(opOffJz, Jz(condlvid, 0, labelElse), base, Jz(condlvid, 0, 0), left + ([Jmp(0)] + right));
      MoveFirst(base, Jz(condlvid, 0, labelElse), left, [Jmp(0)] + right);
      Update(opOffIntermediateEnd, Jmp(labelEnd), base + [Jz(condlvid, 0, labelElse)] + left, Jmp(0), right);
    }
  
    // ---- statements ----

    ghost predicate Done(before: Code, a: EmittedStmt)
      reads this
    {
      code == before + a.code && nextVarID == a.n
    }

    method VisitStmt(s: Stmt, c: Ctx)
      modifies this
      ensures Done(old(code), EmitStmt(s, c, old(nextVarID)))
      decreases s, 3
    {
      match s {
        case Skip => VisitSkip(s, c);
        case Block(_) => VisitBlock(s, c);
        case Seq(_, _) => VisitSeq(s, c);
        case Let(_, _, _) => VisitVar(s, c);
        case Assign(_, _) => VisitOperation(s, c);
        case Assert(_) => VisitOperation(s, c);
        case Eval(_) => VisitSimple(s, c);
        case Observe(_, _) => VisitSimple(s, c);
        case Return(_) => VisitSimple(s, c);
        case Throw(_, _) => VisitSimple(s, c);
        case If(_, _) => GenerateIfStmt(s, c);
        case IfElse(_, _, _) => GenerateIfStmt(s, c);
        case While(_, _) => VisitWhile(s, c);
        case DoWhile(_, _) => VisitDoWhile(s, c);
        case OnFail(_, _, _, _) => VisitOnScopeFail(s, c);
      }
    }

    method VisitSkip(s: Stmt, c: Ctx)
      requires s.Skip?
      modifies this
      ensures Done(old(code), EmitStmt(s, c, old(nextVarID)))
      decreases s, 2
    {
      assert code + [] == code;
    }

    method VisitBlock(s: Stmt, c: Ctx)
      requires s.Block?
      modifies this
      ensures Done(old(code), EmitStmt(s, c, old(nextVarID)))
      decreases s, 2
    {
      hide EmitStmt;
      ghost var before, n := code, nextVarID;
      UnfoldBlock(s, c, n);
      Append([ScopeBegin]);
      VisitStmt(s.s, c);
      Append([ScopeEnd]);
      Cat4(before, [ScopeBegin], EmitStmt(s.s, c, n).code, [ScopeEnd]);
    }

    method VisitSeq(s: Stmt, c: Ctx)
      requires s.Seq?
      modifies this
      ensures Done(old(code), EmitStmt(s, c, old(nextVarID)))
      decreases s, 2
    {
      hide EmitStmt;
      ghost var before, n := code, nextVarID;
      UnfoldBlock(s, c, n);
      VisitStmt(s.a, c);
      ghost var a := EmitStmt(s.a, c, n);
      VisitStmt(s.b, c);
      Cat3(before, a.code, EmitStmt(s.b, c, a.n).code);
    }

    method VisitVar(s: Stmt, c: Ctx)
      requires s.Let?
      modifies this
      ensures Done(old(code), EmitStmt(s, c, old(nextVarID)))
      decreases s, 2
    {
      hide EmitStmt;
      hide EmitExpr;
      ghost var before, n := code, nextVarID;
      UnfoldBlock(s, c, n);
      var varlvid := Alloc();
      var lvid := VisitExpr(s.e, c);
      ghost var a := EmitExpr(s.e, c, n + 1);
      Append([Store(varlvid, lvid)]);
      VisitStmt(s.s, c.Declare(s.x, varlvid));
      Cat5(before, [Stackalloc(varlvid)], a.code, [Store(varlvid, lvid)],
           EmitStmt(s.s, c.Declare(s.x, n + 1), a.n).code);
    }

    // Assignments and assertions are calls
    method VisitOperation(s: Stmt, c: Ctx)
      requires s.Assign? || s.Assert?
      modifies this
      ensures Done(old(code), EmitStmt(s, c, old(nextVarID)))
      decreases s, 2
    {
      hide EmitStmt;
      hide EmitExpr;
      hide Dispatch;
      hide CallHeader;
      ghost var before, n := code, nextVarID;
      UnfoldSimple(s, c, n);
      var callret := OpenCall();
      var lvid := VisitExpr(s.e, c);
      CloseCall([if s.Assign? then Store(c.Slot(s.x), lvid) else Opassert(lvid)], c.hs, before, n,
                EmitExpr(s.e, c, n + 2).code);
    }

    method VisitSimple(s: Stmt, c: Ctx)
      requires s.Eval? || s.Observe? || s.Return? || s.Throw?
      modifies this
      ensures Done(old(code), EmitStmt(s, c, old(nextVarID)))
      decreases s, 2
    {
      hide EmitStmt;
      hide EmitExpr;
      ghost var before, n := code, nextVarID;
      UnfoldSimple(s, c, n);
      Append([ScopeBegin]);
      var lvid := VisitExpr(s.e, c);
      ghost var a := EmitExpr(s.e, c, n);
      match s {
        case Observe(iid, _) => Append([Push(lvid), Intrinsic(iid), ScopeEnd]);
        case Return(_) =>
          var tmp := NextVar();
          Append([Stackalloc(tmp), Ret(lvid), ScopeEnd]);
        case Throw(atomid, _) => Append([Raise(lvid, c.RaiseTarget(atomid), atomid), ScopeEnd]);
        case Eval(_) => Append([ScopeEnd]);
      }
      Cat4(before, [ScopeBegin], a.code, Operation(s, c, a));
    }

    method GenerateIfStmt(s: Stmt, c: Ctx)
      requires s.If? || s.IfElse?
      modifies this
      ensures Done(old(code), EmitStmt(s, c, old(nextVarID)))
      decreases s, 2
    {
      hide EmitStmt;
      hide EmitExpr;
      hide Condition;
      hide MakeIf;
      hide MakeIfElse;
      ghost var before, n := code, nextVarID;
      UnfoldBranch(s, c, n);
      var hasElseClause := s.IfElse?;
      var condlvid := NextVar();
      VisitCondition(s.c, c, condlvid);
      ghost var a := EmitExpr(s.c, c, n + 1);
      ghost var base := code;
      var opOffJz := |code|;
      Append([Jz(condlvid, 0, 0), ScopeBegin]);
      VisitStmt(s.t, c);
      ghost var b := EmitStmt(s.t, c, a.n);
      Append([ScopeEnd]);
      if hasElseClause {
        VisitElse(s.f, c, opOffJz, condlvid, base, b.code);
        IfElseCode(before, n, a, b, EmitStmt(s.f, c, b.n + 1), base, code);
      } else {
        var labelEnd := PutLabel();
        IfCode(base, Jz(condlvid, 0, 0), b.code, labelEnd, code);
        Update(opOffJz, Jz(condlvid, 0, labelEnd), base, Jz(condlvid, 0, 0),
               [ScopeBegin] + (b.code + [ScopeEnd, Label(labelEnd)]));
        IfShape(before, n, a, b, base, code);
      }
    }

    // The second branch, then the labels of both are put in their jumps
    method VisitElse(s: Stmt, c: Ctx, opOffJz: nat, condlvid: nat, ghost base: Code, ghost b: Code)
      requires code == base + [Jz(condlvid, 0, 0), ScopeBegin] + b + [ScopeEnd] && opOffJz == |base|
      modifies this
      ensures var labelElse := old(nextVarID) + 1;
        var d := EmitStmt(s, c, labelElse);
        && nextVarID == d.n + 1
        && code == (base + [Jz(condlvid, 0, labelElse)] + ([ScopeBegin] + (b + [ScopeEnd])))
                   + ([Jmp(d.n + 1)] + ([Label(labelElse), ScopeBegin] + (d.code + [ScopeEnd, Label(d.n + 1)])))
      decreases s, 4
    {
      hide EmitStmt;
      var opOffIntermediateEnd := |code|;
      Append([Jmp(0)]);
      var labelElse := PutLabel();
      Append([ScopeBegin]);
      VisitStmt(s, c);
      ghost var d := EmitStmt(s, c, labelElse);
      Append([ScopeEnd]);
      var labelEnd := PutLabel();
      ghost var last := [ScopeEnd, Label(labelEnd)];
      assert last[..1] == [ScopeEnd];
      FillBranch(opOffJz, opOffIntermediateEnd, condlvid, labelElse, labelEnd, base, b, [ScopeEnd], d.code, last);
    }

    method VisitWhile(s: Stmt, c: Ctx)
      requires s.While?
      modifies this
      ensures Done(old(code), EmitStmt(s, c, old(nextVarID)))
      decreases s, 2
    {
      hide EmitStmt;
      hide EmitExpr;
      hide Condition;
      ghost var before, n := code, nextVarID;
      UnfoldBranch(s, c, n);
      Append([ScopeBegin]);
      var labelWhile := PutLabel();
      Cat3(before, [ScopeBegin], [Label(labelWhile)]);
      ghost var head := [ScopeBegin, Label(labelWhile)];
      assert [ScopeBegin] + [Label(labelWhile)] == head;
      var condlvid := NextVar();
      VisitCondition(s.c, c, condlvid);
      ghost var a := EmitExpr(s.c, c, n + 2);
      ghost var base := code;
      var jumpOffset := |code|;
      Append([Jz(condlvid, 0, 0), ScopeBegin]);
      VisitStmt(s.s, c);
      ghost var b := EmitStmt(s.s, c, a.n);
      Append([ScopeEnd, Jmp(labelWhile)]);
      var labelEnd := PutLabel();
      ghost var tail := [ScopeEnd, Jmp(labelWhile), Label(labelEnd)];
      LoopCode(base, Jz(condlvid, 0, 0), b.code, labelWhile, labelEnd, code);
      Update(jumpOffset, Jz(condlvid, 0, labelEnd), base, Jz(condlvid, 0, 0), [ScopeBegin] + (b.code + tail));
      Append([ScopeEnd]);
      WhileShape(before, n, a, b, base, code);
    }

    method VisitDoWhile(s: Stmt, c: Ctx)
      requires s.DoWhile?
      modifies this
      ensures Done(old(code), EmitStmt(s, c, old(nextVarID)))
      decreases s, 2
    {
      hide EmitStmt;
      hide EmitExpr;
      hide Condition;
      ghost var before, n := code, nextVarID;
      UnfoldBranch(s, c, n);
      Append([ScopeBegin]);
      var labelWhile := PutLabel();
      Append([ScopeBegin]);
      ghost var head := [ScopeBegin, Label(labelWhile), ScopeBegin];
      assert code == before + head;
      VisitStmt(s.s, c);
      ghost var b := EmitStmt(s.s, c, n + 1);
      Append([ScopeEnd]);
      var condlvid := NextVar();
      VisitCondition(s.c, c, condlvid);
      ghost var a := EmitExpr(s.c, c, b.n + 1);
      Append([Jnz(condlvid, 0, labelWhile), ScopeEnd]);
      Cat6(before, head, b.code, [ScopeEnd], Condition(a, condlvid), [Jnz(condlvid, 0, labelWhile), ScopeEnd]);
    }

    // The handler, then the rest of the block. When the block is left, its counter is given back to its parent before
    // the label of its exit is drawn.
    method VisitOnScopeFail(s: Stmt, c: Ctx)
      requires s.OnFail?
      modifies this
      ensures Done(old(code), EmitStmt(s, c, old(nextVarID)))
      decreases s, 2
    {
      hide EmitStmt;
      hide Entrance;
      hide MakeOnFail;
      ghost var before, n := code, nextVarID;
      UnfoldBlock(s, c, n);
      var startLabel, jmpOffset := VisitHandler(s, c);
      ghost var a := EmitStmt(s.h, InHandler(c, s.atomid, s.x, n), FirstInHandler(s.atomid, n));
      ghost var base := HandlerBlock(before, s.atomid, startLabel, a);
      VisitStmt(s.s, c.With(s.atomid, startLabel));
      ghost var b := EmitStmt(s.s, c.With(s.atomid, n + 1), a.n + 1);
      CloseBlock(jmpOffset, base, [Label(a.n + 1)], b.code);
      OnFailShape(before, s.atomid, a, b, n, code);
    }

    // The code skipped by the block, which starts with the handler and ends with a jump to the exit of the block
    method VisitHandler(s: Stmt, c: Ctx) returns (startLabel: nat, jmpOffset: nat)
      requires s.OnFail?
      modifies this
      ensures startLabel == old(nextVarID) + 1
      ensures var n := old(nextVarID);
        var a := EmitStmt(s.h, InHandler(c, s.atomid, s.x, n), FirstInHandler(s.atomid, n));
        && jmpOffset == |HandlerBlock(old(code), s.atomid, startLabel, a)| && nextVarID == a.n + 1
        && code == HandlerBlock(old(code), s.atomid, startLabel, a) + ([Jmp(0)] + [Label(a.n + 1)])
      decreases s, 1
    {
      hide EmitStmt;
      hide Entrance;
      ghost var before := code;
      Append([ScopeBegin]);
      var ignJmp := |code|;
      Append([Jmp(0)]);
      startLabel := PutLabel();
      OpenHandler(s.atomid, startLabel);
      ghost var entrance := Entrance(s.atomid, startLabel);
      VisitStmt(s.h, InHandler(c, s.atomid, s.x, startLabel - 1));
      ghost var a := EmitStmt(s.h, InHandler(c, s.atomid, s.x, startLabel - 1),
                              FirstInHandler(s.atomid, startLabel - 1));
      Append([ScopeEnd]);
      jmpOffset := |code|;
      Append([Jmp(0)]);
      var over := PutLabel();
      ghost var h := entrance + (a.code + [ScopeEnd]);
      HandlerCode(before, startLabel, entrance, a.code, over, code);
      Update(ignJmp, Jmp(over), before + [ScopeBegin], Jmp(0), ([Label(startLabel)] + h) + ([Jmp(0)] + [Label(over)]));
      MoveFirst(before + [ScopeBegin], Jmp(over), [Label(startLabel)] + h, [Jmp(0)] + [Label(over)]);
    }

    // The counter goes back to the parent, then the label of the exit is drawn and put in the jump of the handler
    method CloseBlock(jmpOffset: nat, ghost base: Code, ghost over: Code, ghost b: Code)
      requires code == base + ([Jmp(0)] + over) + b && jmpOffset == |base|
      modifies this
      ensures nextVarID == old(nextVarID)
      ensures var exit := old(nextVarID) + 1;
        code == base + ([Jmp(exit)] + (over + (b + [Label(exit)]))) + [ScopeEnd]
    {
      var broadcast := nextVarID;
      var exit := PutLabel();
      Cat3(base, [Jmp(0)], over);
      Cat5(base, [Jmp(0)], over, b, [Label(exit)]);
      Update(jmpOffset, Jmp(exit), base, Jmp(0), over + (b + [Label(exit)]));
      Append([ScopeEnd]);
      nextVarID := broadcast;
    }

    ghost function HandlerBlock(before: Code, atomid: nat, startLabel: nat, a: EmittedStmt): Code {
      before + [ScopeBegin] + [Jmp(a.n + 1)]
      + ([Label(startLabel)] + (Entrance(atomid, startLabel) + (a.code + [ScopeEnd])))
    }

    method OpenHandler(atomid: nat, startLabel: nat)
      requires nextVarID == startLabel
      modifies this
      ensures code == old(code) + Entrance(atomid, startLabel)
      ensures nextVarID == if atomid == 0 then startLabel else startLabel + 1
    {
      ghost var before := code;
      if atomid != 0 {
        var error := Alloc();
        Append([ScopeBegin]);
        assert code == before + [Stackalloc(error), ScopeBegin];
      } else {
        Append([ScopeBegin]);
      }
    }
  }

  lemma UnfoldArgs(args: Args, c: Ctx, n: nat)
    ensures args.NoArgs? ==> EmitArgs(args, c, n) == EmittedArgs([], n, [])
    ensures args.More? ==>
      var a := EmitExpr(args.e, c, n);
      var b := EmitArgs(args.rest, c, a.n);
      EmitArgs(args, c, n) == EmittedArgs(a.code + b.code, b.n, [a.lvid] + b.lvids)
  {
    hide EmitExpr;
  }

  lemma ShortTail(base: Code, tail: Code, code: Code)
    requires |tail| == 6 && |base| >= 4
    requires code == base + [tail[0], tail[1]] + [tail[2]] + [tail[3]] + [tail[4]] + [tail[5]]
    ensures code == base + tail
  {
    assert tail == [tail[0], tail[1]] + ([tail[2]] + ([tail[3]] + ([tail[4]] + [tail[5]])));
    Cat6(base, [tail[0], tail[1]], [tail[2]], [tail[3]], [tail[4]], [tail[5]]);
  }

  lemma RoomSplit(alloc: Instr, gate: Instr, after: Code)
    ensures [alloc, gate, Nop, ScopeBegin] + after == [alloc] + ([gate] + ([Nop, ScopeBegin] + after))
  {
  }

  // The code of a branch, as it was appended
  lemma BranchCode(base: Code, jz: Instr, b: Code, endThen: Code, jmp: Instr, orElse: Instr, d: Code, endElse: Code,
                   code: Code)
    requires |endElse| > 1
    requires code == base + [jz, ScopeBegin] + b + endThen + [jmp] + [orElse] + [ScopeBegin] + d
                     + endElse[..|endElse| - 1] + [endElse[|endElse| - 1]]
    ensures code == base + ([jz] + (([ScopeBegin] + (b + endThen)) + ([jmp] + ([orElse, ScopeBegin] + (d + endElse)))))
  {
    var k := |endElse| - 1;
    assert endElse == endElse[..k] + [endElse[k]];
    Cat3(base + [jz, ScopeBegin] + b + endThen + [jmp] + [orElse] + [ScopeBegin] + d, endElse[..k], [endElse[k]]);
    assert [jz, ScopeBegin] == [jz] + [ScopeBegin] && [orElse, ScopeBegin] == [orElse] + [ScopeBegin];
    Cat5(base + [jz, ScopeBegin] + b + endThen + [jmp], [orElse], [ScopeBegin], d, endElse);
    assert [orElse] + ([ScopeBegin] + (d + endElse)) == [orElse, ScopeBegin] + (d + endElse);
    var right := [orElse, ScopeBegin] + (d + endElse);
    Cat5(base, [jz, ScopeBegin], b, endThen, [jmp] + right);
    assert [jz, ScopeBegin] + (b + (endThen + ([jmp] + right)))
        == [jz] + (([ScopeBegin] + (b + endThen)) + ([jmp] + right));
  }

  lemma MoveFirst(base: Code, i: Instr, left: Code, right: Code)
    ensures base + ([i] + (left + right)) == (base + [i] + left) + right
  {
  }

  lemma ChoiceCode(before: Code, n: nat, a: Emitted, b: Emitted, d: Emitted, base: Code, code: Code)
    requires base == before + [Stackalloc(n + 1)] + Condition(a, n + 2)
    requires var labelElse, labelEnd := b.n + 1, d.n + 1;
      code == (base + [Jz(n + 2, 0, labelElse)] + ([ScopeBegin] + (b.code + [Store(n + 1, b.lvid), ScopeEnd])))
              + ([Jmp(labelEnd)] + ([Label(labelElse), ScopeBegin]
                                    + (d.code + [Store(n + 1, d.lvid), ScopeEnd, Label(labelEnd)])))
    ensures code == before + MakeChoice(a, b, d, n).code
    ensures MakeChoice(a, b, d, n).n == d.n + 1 && MakeChoice(a, b, d, n).lvid == n + 1
  {
    hide Condition;
    var labelElse, labelEnd := b.n + 1, d.n + 1;
    var last := [Store(n + 1, d.lvid), ScopeEnd, Label(labelEnd)];
    var mid := [Store(n + 1, b.lvid), ScopeEnd, Jmp(labelEnd), Label(labelElse), ScopeBegin];
    var gate := [Jz(n + 2, 0, labelElse), ScopeBegin];
    Cat6(before, [Stackalloc(n + 1)], Condition(a, n + 2), gate, b.code, mid + (d.code + last));
    Regroup(base, Jz(n + 2, 0, labelElse), b.code, [Store(n + 1, b.lvid), ScopeEnd], [Jmp(labelEnd)],
            [Label(labelElse), ScopeBegin], d.code + last);
  }

  lemma Regroup(base: Code, i: Instr, b: Code, x: Code, y: Code, z: Code, rest: Code)
    ensures (base + [i] + ([ScopeBegin] + (b + x))) + (y + (z + rest))
        == base + [i, ScopeBegin] + b + (x + y + z + rest)
  {
    assert [i, ScopeBegin] == [i] + [ScopeBegin];
    Cat3(base, [i], [ScopeBegin]);
    Cat4(base + [i], [ScopeBegin], b, x);
    Cat3(base + [i] + [ScopeBegin] + b + x, y, z + rest);
    Cat3(base + [i] + [ScopeBegin] + b + x + y, z, rest);
    Cat5(base + [i] + [ScopeBegin] + b, x, y, z, rest);
    Cat4(x, y, z, rest);
  }

  lemma IfElseCode(before: Code, n: nat, a: Emitted, b: EmittedStmt, d: EmittedStmt, base: Code, code: Code)
    requires base == before + Condition(a, n + 1)
    requires var labelElse, labelEnd := b.n + 1, d.n + 1;
      code == (base + [Jz(n + 1, 0, labelElse)] + ([ScopeBegin] + (b.code + [ScopeEnd])))
              + ([Jmp(labelEnd)] + ([Label(labelElse), ScopeBegin] + (d.code + [ScopeEnd, Label(labelEnd)])))
    ensures code == before + MakeIfElse(a, b, d, n).code && MakeIfElse(a, b, d, n).n == d.n + 1
  {
    hide Condition;
    var labelElse, labelEnd := b.n + 1, d.n + 1;
    var last := [ScopeEnd, Label(labelEnd)];
    var mid := [ScopeEnd, Jmp(labelEnd), Label(labelElse), ScopeBegin];
    var gate := [Jz(n + 1, 0, labelElse), ScopeBegin];
    Cat5(before, Condition(a, n + 1), gate, b.code, mid + (d.code + last));
    Regroup(base, Jz(n + 1, 0, labelElse), b.code, [ScopeEnd], [Jmp(labelEnd)], [Label(labelElse), ScopeBegin],
            d.code + last);
    Cat3(mid, d.code, last);
    assert [ScopeEnd] + [Jmp(labelEnd)] + [Label(labelElse), ScopeBegin] == mid;
    Cat3(mid, d.code, last);
  }

  lemma IfCode(base: Code, jz: Instr, b: Code, labelEnd: nat, code: Code)
    requires code == base + [jz, ScopeBegin] + b + [ScopeEnd] + [Label(labelEnd)]
    ensures code == base + ([jz] + ([ScopeBegin] + (b + [ScopeEnd, Label(labelEnd)])))
  {
    assert [jz, ScopeBegin] == [jz] + [ScopeBegin];
    Cat3(base, [jz], [ScopeBegin]);
    assert [ScopeEnd, Label(labelEnd)] == [ScopeEnd] + [Label(labelEnd)];
    Cat6(base, [jz], [ScopeBegin], b, [ScopeEnd], [Label(labelEnd)]);
  }

  lemma IfShape(before: Code, n: nat, a: Emitted, b: EmittedStmt, base: Code, code: Code)
    requires base == before + Condition(a, n + 1)
    requires code == base + ([Jz(n + 1, 0, b.n + 1)] + ([ScopeBegin] + (b.code + [ScopeEnd, Label(b.n + 1)])))
    ensures code == before + MakeIf(a, b, n).code && MakeIf(a, b, n).n == b.n + 1
  {
    hide Condition;
    var tail := b.code + [ScopeEnd, Label(b.n + 1)];
    assert [Jz(n + 1, 0, b.n + 1)] + ([ScopeBegin] + tail) == [Jz(n + 1, 0, b.n + 1), ScopeBegin] + tail;
    Cat3(before, Condition(a, n + 1), [Jz(n + 1, 0, b.n + 1), ScopeBegin] + tail);
  }

  lemma LoopCode(base: Code, jz: Instr, b: Code, labelWhile: nat, labelEnd: nat, code: Code)
    requires code == base + [jz, ScopeBegin] + b + [ScopeEnd, Jmp(labelWhile)] + [Label(labelEnd)]
    ensures code == base + ([jz] + ([ScopeBegin] + (b + [ScopeEnd, Jmp(labelWhile), Label(labelEnd)])))
  {
    assert [jz, ScopeBegin] == [jz] + [ScopeBegin];
    Cat3(base, [jz], [ScopeBegin]);
    assert [ScopeEnd, Jmp(labelWhile), Label(labelEnd)] == [ScopeEnd, Jmp(labelWhile)] + [Label(labelEnd)];
    Cat6(base, [jz], [ScopeBegin], b, [ScopeEnd, Jmp(labelWhile)], [Label(labelEnd)]);
  }

  lemma WhileShape(before: Code, n: nat, a: Emitted, b: EmittedStmt, base: Code, code: Code)
    requires base == before + [ScopeBegin, Label(n + 1)] + Condition(a, n + 2)
    requires code == base + ([Jz(n + 2, 0, b.n + 1)]
                             + ([ScopeBegin] + (b.code + [ScopeEnd, Jmp(n + 1), Label(b.n + 1)]))) + [ScopeEnd]
    ensures code == before + MakeWhile(a, b, n).code && MakeWhile(a, b, n).n == b.n + 1
  {
    hide Condition;
    var jz := Jz(n + 2, 0, b.n + 1);
    var tail := [ScopeEnd, Jmp(n + 1), Label(b.n + 1)];
    var last := [ScopeEnd, Jmp(n + 1), Label(b.n + 1), ScopeEnd];
    assert last == tail + [ScopeEnd];
    assert [jz, ScopeBegin] == [jz] + [ScopeBegin];
    Cat5(base, [jz], [ScopeBegin], b.code, tail);
    Cat3(base, [jz], [ScopeBegin]);
    Cat3(base + [jz, ScopeBegin] + b.code, tail, [ScopeEnd]);
    Cat6(before, [ScopeBegin, Label(n + 1)], Condition(a, n + 2), [jz, ScopeBegin], b.code, last);
  }

  lemma HandlerCode(before: Code, startLabel: nat, entrance: Code, a: Code, over: nat, code: Code)
    requires code == before + [ScopeBegin] + [Jmp(0)] + [Label(startLabel)] + entrance + a + [ScopeEnd] + [Jmp(0)]
                     + [Label(over)]
    ensures code == before + [ScopeBegin]
                    + ([Jmp(0)] + (([Label(startLabel)] + (entrance + (a + [ScopeEnd]))) + ([Jmp(0)] + [Label(over)])))
  {
    var base := before + [ScopeBegin];
    Cat5(base + [Jmp(0)], [Label(startLabel)], entrance, a, [ScopeEnd]);
    var h := [Label(startLabel)] + (entrance + (a + [ScopeEnd]));
    Cat3(base + [Jmp(0)] + h, [Jmp(0)], [Label(over)]);
    Cat4(base, [Jmp(0)], h, [Jmp(0)] + [Label(over)]);
  }

  lemma OnFailShape(before: Code, atomid: nat, a: EmittedStmt, b: EmittedStmt, n: nat, code: Code)
    requires var over, exit := a.n + 1, b.n + 1;
      code == before + [ScopeBegin] + [Jmp(over)]
              + ([Label(n + 1)] + (Entrance(atomid, n + 1) + (a.code + [ScopeEnd])))
              + ([Jmp(exit)] + ([Label(over)] + (b.code + [Label(exit)]))) + [ScopeEnd]
    ensures code == before + MakeOnFail(atomid, a, b, n).code && MakeOnFail(atomid, a, b, n).n == b.n
  {
    hide Entrance;
    var over, exit := a.n + 1, b.n + 1;
    var entrance := Entrance(atomid, n + 1);
    var head := [ScopeBegin, Jmp(over), Label(n + 1)];
    var mid := [ScopeEnd, Jmp(exit), Label(over)];
    var last := [Label(exit), ScopeEnd];
    Cat4(before + [ScopeBegin] + [Jmp(over)], [Label(n + 1)], entrance, a.code + [ScopeEnd]);
    Cat3(before + [ScopeBegin] + [Jmp(over)] + [Label(n + 1)] + entrance, a.code, [ScopeEnd]);
    HeadTogether(before, over, n + 1);
    var base := before + head + entrance + a.code;
    Cat5(base + [ScopeEnd], [Jmp(exit)], [Label(over)], b.code, [Label(exit)]);
    MidTogether(base, exit, over);
    Cat3(base + mid + b.code, [Label(exit)], [ScopeEnd]);
    assert [Label(exit)] + [ScopeEnd] == last;
    Cat7(before, head, entrance, a.code, mid, b.code, last);
  }

  lemma HeadTogether(before: Code, over: nat, start: nat)
    ensures before + [ScopeBegin] + [Jmp(over)] + [Label(start)] == before + [ScopeBegin, Jmp(over), Label(start)]
  {
  }

  lemma MidTogether(base: Code, exit: nat, over: nat)
    ensures base + [ScopeEnd] + [Jmp(exit)] + [Label(over)] == base + [ScopeEnd, Jmp(exit), Label(over)]
  {
  }

  // A whole function: the number of registers is known at the end
  method ProduceFunction(f: Func) returns (code: Code)
    ensures code == EmitFunc(f)
  {
    hide EmitStmt;
    var scope := new Scope(FirstId(f));
    scope.Append([Stacksize(0)]);
    assert scope.code == [Stacksize(0)];
    scope.VisitStmt(WholeBody(f), Ctx(Parameters(f.params), NO_HANDLER));
    ghost var body := EmitBody(f);
    assert scope.code == [] + ([Stacksize(0)] + body.code);
    scope.Update(0, Stacksize(scope.nextVarID + 1), [], Stacksize(0), body.code);
    code := scope.code;
    assert [] + ([Stacksize(body.n + 1)] + body.code) == [Stacksize(body.n + 1)] + body.code;
  }
}
