// The code emitted for the source language. Registers and labels are drawn from one growing counter.
module Emitter {
  import opened Isa
  import opened Handlers
  import opened Source

  // Where the names in scope live, and the handlers in scope
  datatype Ctx = Ctx(names: map<nat, nat>, hs: Stack) {
    function Slot(x: nat): nat { if x in names then names[x] else 0 }

    function Declare(x: nat, lvid: nat): Ctx { this.(names := names[x := lvid]) }

    function With(atomid: nat, target: nat): Ctx {
      if atomid == 0 then this.(hs := hs.(any := Handler(0, target, 0)))
      else this.(hs := hs.(typed := hs.typed + [Typed(atomid, Handler(target + 1, target, 0))]))
    }

    // The label of the handler for a direct 'raise'; 0 to leave the function
    function RaiseTarget(atomid: nat): nat {
      if hs.IsEmpty() then 0
      else match hs.Find(atomid)
           case Some(h) => h.target
           case None => 0
    }
  }

  // 'n' is the last id drawn, 'lvid' the register of the result
  datatype Emitted = Emitted(code: Code, n: nat, lvid: nat)
  datatype EmittedArgs = EmittedArgs(code: Code, n: nat, lvids: seq<nat>)
  datatype EmittedStmt = EmittedStmt(code: Code, n: nat)

  function Pushes(lvids: seq<nat>): (code: Code)
    ensures |code| == |lvids|
    ensures forall i :: 0 <= i < |lvids| ==> code[i] == Push(lvids[i])
  {
    seq(|lvids|, i requires 0 <= i < |lvids| => Push(lvids[i]))
  }

  // Two registers for a call: the resolved function and its result
  function CallHeader(n: nat): Code { [Stackalloc(n + 1), Stackalloc(n + 2), ScopeBegin] }

  // A condition evaluated into the register 'cond' within its own scope
  function Condition(c: Emitted, cond: nat): Code {
    [Stackalloc(cond), ScopeBegin] + (c.code + [Store(cond, c.lvid), ScopeEnd])
  }

  // 'lazy' when the second operand is skipped, as decided once the operands are typed. Otherwise the room
  // reserved in the code is left as is.
  function Room(lazy: bool, temp: nat, jump: Instr): Code {
    [Stackalloc(temp), if lazy then jump else Nop, Nop, ScopeBegin]
  }

  function EmitShortCircuit(l: Emitted, r: Emitted, n: nat, both: bool, lazy: bool): Emitted {
    var id := r.n + 1;
    var jump := if both then Jz(l.lvid, n + 2, id) else Jnz(l.lvid, n + 2, id);
    Emitted([Stackalloc(n + 1), Stackalloc(n + 2), Stackalloc(n + 3), ScopeBegin]
            + (l.code
               + (Room(lazy, id + 1, jump)
                  + (r.code
                     + [Binary(if both then BitAnd else BitOr, n + 2, l.lvid, r.lvid), ScopeEnd,
                        Label(id), ScopeEnd, Stackalloc(id + 2), Store(n + 3, n + 2)]))),
            id + 2, n + 3)
  }

  // An operation on operands already emitted, within the scope of a call, then the dispatch of its errors
  function MakeCall(body: Code, op: Code, hs: Stack, n: nat, last: nat): Emitted {
    Emitted(CallHeader(n) + (body + (op + ([ScopeEnd] + Dispatch(hs, last + 1)))), last + 1, n + 2)
  }

  function MakeChoice(a: Emitted, b: Emitted, d: Emitted, n: nat): Emitted {
    var labelElse := b.n + 1;
    var labelEnd := d.n + 1;
    Emitted([Stackalloc(n + 1)]
            + (Condition(a, n + 2)
               + ([Jz(n + 2, 0, labelElse), ScopeBegin]
                  + (b.code
                     + ([Store(n + 1, b.lvid), ScopeEnd, Jmp(labelEnd), Label(labelElse), ScopeBegin]
                        + (d.code + [Store(n + 1, d.lvid), ScopeEnd, Label(labelEnd)]))))),
            labelEnd, n + 1)
  }

  function EmitExpr(e: Expr, c: Ctx, n: nat): Emitted {
    match e
    case Const(k) => Emitted([Stackalloc(n + 1), StoreConst(n + 1, k)], n + 1, n + 1)
    case Var(x) => Emitted([Stackalloc(n + 1), Store(n + 1, c.Slot(x))], n + 1, n + 1)
    case Not(e1) =>
      var r := EmitExpr(e1, c, n + 2);
      MakeCall(r.code, [Negation(n + 2, r.lvid)], c.hs, n, r.n)
    case Bin(op, l, r) =>
      var a := EmitExpr(l, c, n + 2);
      var b := EmitExpr(r, c, a.n);
      MakeCall(a.code + b.code, [Binary(op, n + 2, a.lvid, b.lvid)], c.hs, n, b.n)
    case Both(l, r, lazy) =>
      var a := EmitExpr(l, c, n + 3);
      EmitShortCircuit(a, EmitExpr(r, c, a.n), n, true, lazy)
    case Either(l, r, lazy) =>
      var a := EmitExpr(l, c, n + 3);
      EmitShortCircuit(a, EmitExpr(r, c, a.n), n, false, lazy)
    case Choice(cond, t, f) =>
      var a := EmitExpr(cond, c, n + 2);
      var b := EmitExpr(t, c, a.n);
      MakeChoice(a, b, EmitExpr(f, c, b.n + 1), n)
    case Apply(f, args) =>
      var a := EmitArgs(args, c, n + 2);
      MakeCall(a.code, Pushes(a.lvids) + [Call(n + 2, f)], c.hs, n, a.n)
  }

  function EmitArgs(args: Args, c: Ctx, n: nat): EmittedArgs {
    match args
    case NoArgs => EmittedArgs([], n, [])
    case More(e, rest) =>
      var a := EmitExpr(e, c, n);
      var b := EmitArgs(rest, c, a.n);
      EmittedArgs(a.code + b.code, b.n, [a.lvid] + b.lvids)
  }

  function MakeIf(a: Emitted, b: EmittedStmt, n: nat): EmittedStmt {
    var labelEnd := b.n + 1;
    EmittedStmt(Condition(a, n + 1)
                + ([Jz(n + 1, 0, labelEnd), ScopeBegin] + (b.code + [ScopeEnd, Label(labelEnd)])),
                labelEnd)
  }

  function MakeIfElse(a: Emitted, b: EmittedStmt, d: EmittedStmt, n: nat): EmittedStmt {
    var labelElse := b.n + 1;
    var labelEnd := d.n + 1;
    EmittedStmt(Condition(a, n + 1)
                + ([Jz(n + 1, 0, labelElse), ScopeBegin]
                   + (b.code
                      + ([ScopeEnd, Jmp(labelEnd), Label(labelElse), ScopeBegin]
                         + (d.code + [ScopeEnd, Label(labelEnd)])))),
                labelEnd)
  }

  function MakeWhile(a: Emitted, b: EmittedStmt, n: nat): EmittedStmt {
    var labelEnd := b.n + 1;
    EmittedStmt([ScopeBegin, Label(n + 1)]
                + (Condition(a, n + 2)
                   + ([Jz(n + 2, 0, labelEnd), ScopeBegin]
                      + (b.code + [ScopeEnd, Jmp(n + 1), Label(labelEnd), ScopeEnd]))),
                labelEnd)
  }

  function MakeDoWhile(b: EmittedStmt, a: Emitted, n: nat): EmittedStmt {
    EmittedStmt([ScopeBegin, Label(n + 1), ScopeBegin]
                + (b.code + ([ScopeEnd] + (Condition(a, b.n + 1) + [Jnz(b.n + 1, 0, n + 1), ScopeEnd]))),
                a.n)
  }

  // The handler 'a' comes before the code 'b' it protects
  function MakeOnFail(atomid: nat, a: EmittedStmt, b: EmittedStmt, n: nat): EmittedStmt {
    var over := a.n + 1;
    // the counter of the enclosing block is saved before this last label is drawn
    var exit := b.n + 1;
    EmittedStmt([ScopeBegin, Jmp(over), Label(n + 1)]
                + (Entrance(atomid, n + 1)
                   + (a.code + ([ScopeEnd, Jmp(exit), Label(over)] + (b.code + [Label(exit), ScopeEnd])))),
                b.n)
  }

  // The register of the error, right after the label of its handler
  function Entrance(atomid: nat, start: nat): Code {
    if atomid == 0 then [ScopeBegin] else [Stackalloc(start + 1), ScopeBegin]
  }

  function FirstInHandler(atomid: nat, n: nat): nat { if atomid == 0 then n + 1 else n + 2 }

  function InHandler(c: Ctx, atomid: nat, x: nat, n: nat): Ctx {
    if atomid == 0 then c else c.Declare(x, n + 2)
  }

  // A statement made of one expression
  function MakeSimple(head: Code, a: Emitted, op: Code, n: nat): EmittedStmt {
    EmittedStmt(head + (a.code + op), n)
  }

  function EmitStmt(s: Stmt, c: Ctx, n: nat): EmittedStmt {
    match s
    case Skip => EmittedStmt([], n)
    case Block(s1) =>
      var a := EmitStmt(s1, c, n);
      EmittedStmt([ScopeBegin] + (a.code + [ScopeEnd]), a.n)
    case Seq(s1, s2) =>
      var a := EmitStmt(s1, c, n);
      var b := EmitStmt(s2, c, a.n);
      EmittedStmt(a.code + b.code, b.n)
    case Let(x, e, s1) =>
      var a := EmitExpr(e, c, n + 1);
      var b := EmitStmt(s1, c.Declare(x, n + 1), a.n);
      EmittedStmt([Stackalloc(n + 1)] + (a.code + ([Store(n + 1, a.lvid)] + b.code)), b.n)
    case Assign(x, e) =>
      var a := EmitExpr(e, c, n + 2);
      var r := MakeCall(a.code, [Store(c.Slot(x), a.lvid)], c.hs, n, a.n);
      EmittedStmt(r.code, r.n)
    case Eval(e) =>
      var a := EmitExpr(e, c, n);
      MakeSimple([ScopeBegin], a, [ScopeEnd], a.n)
    case Observe(iid, e) =>
      var a := EmitExpr(e, c, n);
      MakeSimple([ScopeBegin], a, [Push(a.lvid), Intrinsic(iid), ScopeEnd], a.n)
    case Assert(e) =>
      var a := EmitExpr(e, c, n + 2);
      var r := MakeCall(a.code, [Opassert(a.lvid)], c.hs, n, a.n);
      EmittedStmt(r.code, r.n)
    case If(cond, t) =>
      var a := EmitExpr(cond, c, n + 1);
      MakeIf(a, EmitStmt(t, c, a.n), n)
    case IfElse(cond, t, f) =>
      var a := EmitExpr(cond, c, n + 1);
      var b := EmitStmt(t, c, a.n);
      MakeIfElse(a, b, EmitStmt(f, c, b.n + 1), n)
    case While(cond, s1) =>
      var a := EmitExpr(cond, c, n + 2);
      MakeWhile(a, EmitStmt(s1, c, a.n), n)
    case DoWhile(s1, cond) =>
      var b := EmitStmt(s1, c, n + 1);
      MakeDoWhile(b, EmitExpr(cond, c, b.n + 1), n)
    case Return(e) =>
      var a := EmitExpr(e, c, n);
      MakeSimple([ScopeBegin], a, [Stackalloc(a.n + 1), Ret(a.lvid), ScopeEnd], a.n + 1)
    case Throw(atomid, e) =>
      var a := EmitExpr(e, c, n);
      MakeSimple([ScopeBegin], a, [Raise(a.lvid, c.RaiseTarget(atomid), atomid), ScopeEnd], a.n)
    case OnFail(atomid, x, h, s1) =>
      var a := EmitStmt(h, InHandler(c, atomid, x, n), FirstInHandler(atomid, n));
      MakeOnFail(atomid, a, EmitStmt(s1, c.With(atomid, n + 1), a.n + 1), n)
  }

  // ---- one level of the two emitters, for the proofs which must not unfold them further ----

  lemma UnfoldExpr(e: Expr, c: Ctx, n: nat)
    ensures e.Not? ==> var r := EmitExpr(e.e, c, n + 2);
      EmitExpr(e, c, n) == MakeCall(r.code, [Negation(n + 2, r.lvid)], c.hs, n, r.n)
    ensures e.Bin? ==> var a := EmitExpr(e.l, c, n + 2);
      var b := EmitExpr(e.r, c, a.n);
      EmitExpr(e, c, n) == MakeCall(a.code + b.code, [Binary(e.op, n + 2, a.lvid, b.lvid)], c.hs, n, b.n)
    ensures e.Both? || e.Either? ==> var a := EmitExpr(e.l, c, n + 3);
      EmitExpr(e, c, n) == EmitShortCircuit(a, EmitExpr(e.r, c, a.n), n, e.Both?, e.lazy)
    ensures e.Choice? ==> var a := EmitExpr(e.c, c, n + 2);
      var b := EmitExpr(e.t, c, a.n);
      EmitExpr(e, c, n) == MakeChoice(a, b, EmitExpr(e.e, c, b.n + 1), n)
    ensures e.Apply? ==> var a := EmitArgs(e.args, c, n + 2);
      EmitExpr(e, c, n) == MakeCall(a.code, Pushes(a.lvids) + [Call(n + 2, e.f)], c.hs, n, a.n)
  {
    hide MakeCall;
    hide EmitShortCircuit;
    hide MakeChoice;
    hide Pushes;
  }

  lemma UnfoldBlock(s: Stmt, c: Ctx, n: nat)
    ensures s.Block? ==> var a := EmitStmt(s.s, c, n);
      EmitStmt(s, c, n) == EmittedStmt([ScopeBegin] + (a.code + [ScopeEnd]), a.n)
    ensures s.Seq? ==> var a := EmitStmt(s.a, c, n);
      var b := EmitStmt(s.b, c, a.n);
      EmitStmt(s, c, n) == EmittedStmt(a.code + b.code, b.n)
    ensures s.Let? ==> var a := EmitExpr(s.e, c, n + 1);
      var b := EmitStmt(s.s, c.Declare(s.x, n + 1), a.n);
      EmitStmt(s, c, n) == EmittedStmt([Stackalloc(n + 1)] + (a.code + ([Store(n + 1, a.lvid)] + b.code)), b.n)
    ensures s.OnFail? ==> var a := EmitStmt(s.h, InHandler(c, s.atomid, s.x, n), FirstInHandler(s.atomid, n));
      EmitStmt(s, c, n) == MakeOnFail(s.atomid, a, EmitStmt(s.s, c.With(s.atomid, n + 1), a.n + 1), n)
  {
    hide MakeOnFail;
    hide EmitExpr;
    hide InHandler;
  }

  lemma UnfoldSimple(s: Stmt, c: Ctx, n: nat)
    ensures s.Assign? || s.Assert? ==> var a := EmitExpr(s.e, c, n + 2);
      var op := if s.Assign? then Store(c.Slot(s.x), a.lvid) else Opassert(a.lvid);
      var r := MakeCall(a.code, [op], c.hs, n, a.n);
      EmitStmt(s, c, n) == EmittedStmt(r.code, r.n)
    ensures s.Eval? || s.Observe? || s.Return? || s.Throw? ==> var a := EmitExpr(s.e, c, n);
      EmitStmt(s, c, n) == MakeSimple([ScopeBegin], a, Operation(s, c, a), if s.Return? then a.n + 1 else a.n)
  {
  }

  function Operation(s: Stmt, c: Ctx, a: Emitted): Code {
    match s
    case Observe(iid, _) => [Push(a.lvid), Intrinsic(iid), ScopeEnd]
    case Return(_) => [Stackalloc(a.n + 1), Ret(a.lvid), ScopeEnd]
    case Throw(atomid, _) => [Raise(a.lvid, c.RaiseTarget(atomid), atomid), ScopeEnd]
    case _ => [ScopeEnd]
  }

  lemma UnfoldBranch(s: Stmt, c: Ctx, n: nat)
    ensures s.If? ==> var a := EmitExpr(s.c, c, n + 1);
      EmitStmt(s, c, n) == MakeIf(a, EmitStmt(s.t, c, a.n), n)
    ensures s.IfElse? ==> var a := EmitExpr(s.c, c, n + 1);
      var b := EmitStmt(s.t, c, a.n);
      EmitStmt(s, c, n) == MakeIfElse(a, b, EmitStmt(s.f, c, b.n + 1), n)
    ensures s.While? ==> var a := EmitExpr(s.c, c, n + 2);
      EmitStmt(s, c, n) == MakeWhile(a, EmitStmt(s.s, c, a.n), n)
    ensures s.DoWhile? ==> var b := EmitStmt(s.s, c, n + 1);
      EmitStmt(s, c, n) == MakeDoWhile(b, EmitExpr(s.c, c, b.n + 1), n)
  {
    hide MakeIf;
    hide MakeIfElse;
    hide MakeWhile;
    hide MakeDoWhile;
    hide EmitExpr;
  }

  // Parameters come after the register of the result, followed by room for their copies
  function Parameters(params: seq<nat>): map<nat, nat> {
    if params == [] then map[]
    else Parameters(params[..|params| - 1])[params[|params| - 1] := |params| + 1]
  }

  function FirstId(f: Func): nat { 1 + 2 * |f.params| }

  function EmitBody(f: Func): EmittedStmt {
    EmitStmt(WholeBody(f), Ctx(Parameters(f.params), NO_HANDLER), FirstId(f))
  }

  function EmitFunc(f: Func): Code {
    var body := EmitBody(f);
    [Stacksize(body.n + 1)] + body.code
  }

  function EmitAll(p: seq<Func>): (r: seq<Code>)
    ensures |r| == |p|
    ensures forall i :: 0 <= i < |p| ==> r[i] == EmitFunc(p[i])
  {
    seq(|p|, i requires 0 <= i < |p| => EmitFunc(p[i]))
  }
}
