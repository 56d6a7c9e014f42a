// The source language: structured programs and what they mean.
module Source {
  import opened Isa
  import opened Machine
  import opened Handlers

  datatype Expr =
    | Const(k: u64)
    | Var(x: nat)
    | Not(e: Expr)
    | Bin(op: BinOp, l: Expr, r: Expr)
    | Both(l: Expr, r: Expr, lazy: bool)    // 'and': the second operand is skipped, or not, when the first decides
    | Either(l: Expr, r: Expr, lazy: bool)  // 'or', in the same way
    | Choice(c: Expr, t: Expr, e: Expr)  // if-expression
    | Apply(f: nat, args: Args)

  datatype Args = NoArgs | More(e: Expr, rest: Args)

  datatype Stmt =
    | Skip
    | Block(s: Stmt)
    | Seq(a: Stmt, b: Stmt)
    | Let(x: nat, e: Expr, s: Stmt)
    | Assign(x: nat, e: Expr)
    | Eval(e: Expr)
    | Observe(iid: nat, e: Expr)
    | Assert(e: Expr)
    | If(c: Expr, t: Stmt)
    | IfElse(c: Expr, t: Stmt, f: Stmt)
    | While(c: Expr, s: Stmt)
    | DoWhile(s: Stmt, c: Expr)
    | Return(e: Expr)
    | Throw(atomid: nat, e: Expr)
    // the rest 's' of a block, once 'on scope fail' has registered the handler 'h'; no type means any error
    | OnFail(atomid: nat, x: nat, h: Stmt, s: Stmt)

  datatype Func = Func(params: seq<nat>, body: Stmt, result: Expr)

  // The body is followed by a return
  function WholeBody(f: Func): Stmt { Seq(f.body, Return(f.result)) }

  type Env = map<nat, u64>

  // The handlers in scope: the types, then the handler of any error
  datatype Shield = Shield(types: seq<nat>, any: bool) {
    predicate IsEmpty() { types == [] && !any }

    function With(atomid: nat): Shield {
      if atomid == 0 then this.(any := true) else this.(types := types + [atomid])
    }
  }

  const BARE: Shield := Shield([], false)

  // A handler is accepted only if its errors are not handled yet
  predicate CanRegister(h: Shield, atomid: nat) {
    if atomid == 0 then !h.any else Choose(h.types, h.any, atomid).None?
  }

  type Errors = set<nat>

  // The errors of a call: handlers must be there for all of them, unless there is no handler at all
  predicate Covers(h: Shield, errors: Errors) {
    h.IsEmpty() || forall a :: a in errors ==> Choose(h.types, h.any, a).Some?
  }

  // How a computation is cut short
  datatype Exit =
    | Caught(k: nat, error: u64)            // by the k-th handler of the function
    | Unwound(atomid: nat, error: u64)      // out of the function
    | Leaked                                // an error of a call, which none of the handlers in scope is for
    | Crashed(e: Error)
    | Timeout

  datatype ExprOut = Value(v: u64, trace: seq<Event>) | ExprExit(exit: Exit, trace: seq<Event>)
  datatype ArgsOut = Values(vs: seq<u64>, trace: seq<Event>) | ArgsExit(exit: Exit, trace: seq<Event>)
  datatype StmtOut =
    | Normal(env: Env, trace: seq<Event>)
    | Returned(v: u64, trace: seq<Event>)
    | StmtExit(exit: Exit, env: Env, trace: seq<Event>)

  function Lookup(env: Env, x: nat): u64 { if x in env then env[x] else 0 }

  // The name 'x' goes out of scope
  function Restore(env: Env, x: nat, outer: Env): Env {
    if x in outer then env[x := outer[x]] else env - {x}
  }

  function Hide(o: StmtOut, x: nat, outer: Env): StmtOut {
    match o
    case Normal(env, trace) => Normal(Restore(env, x, outer), trace)
    case Returned(_, _) => o
    case StmtExit(exit, env, trace) => StmtExit(exit, Restore(env, x, outer), trace)
  }

  // Where an error goes
  function Raised(h: Shield, atomid: nat, error: u64): Exit {
    if h.IsEmpty() then Unwound(atomid, error)
    else match Choose(h.types, h.any, atomid)
         case Some(k) => Caught(k, error)
         case None => Leaked
  }

  function Bind(params: seq<nat>, vs: seq<u64>): Env
    requires |params| == |vs|
  {
    if params == [] then map[] else Bind(params[..|params| - 1], vs[..|vs| - 1])[params[|params| - 1] := vs[|vs| - 1]]
  }

  // A function call, before the error, if any, is dispatched
  function RunFunc(p: seq<Func>, f: nat, vs: seq<u64>, trace: seq<Event>, fuel: nat): StmtOut
    decreases fuel, 2, Skip
  {
    if fuel == 0 then StmtExit(Timeout, map[], trace)
    else if f >= |p| || |vs| != |p[f].params| then StmtExit(Crashed(UnexpectedOpcode), map[], trace)
    else RunStmt(p, WholeBody(p[f]), Bind(p[f].params, vs), BARE, trace, fuel - 1)
  }

  function RunCall(p: seq<Func>, f: nat, vs: seq<u64>, h: Shield, trace: seq<Event>, fuel: nat): ExprOut
    decreases fuel, 3, Skip
  {
    match RunFunc(p, f, vs, trace, fuel)
    case Normal(_, trace1) => Value(0, trace1)
    case Returned(v, trace1) => Value(v, trace1)
    case StmtExit(Unwound(atomid, error), _, trace1) => ExprExit(Raised(h, atomid, error), trace1)
    case StmtExit(exit, _, trace1) => ExprExit(exit, trace1)
  }

  function RunExpr(p: seq<Func>, e: Expr, env: Env, h: Shield, trace: seq<Event>, fuel: nat): ExprOut
    decreases fuel, 4, e
  {
    match e
    case Const(k) => Value(k, trace)
    case Var(x) => Value(Lookup(env, x), trace)
    case Not(e1) =>
      (match RunExpr(p, e1, env, h, trace, fuel)
       case Value(v, trace1) => Value(if v == 0 then 1 else 0, trace1)
       case o => o)
    case Bin(op, l, r) =>
      (match RunExpr(p, l, env, h, trace, fuel)
       case Value(a, trace1) =>
         (match RunExpr(p, r, env, h, trace1, fuel)
          case Value(b, trace2) =>
            (match Arith(op, a, b)
             case Some(v) => Value(v, trace2)
             case None => ExprExit(Crashed(DivideByZero), trace2))
          case o => o)
       case o => o)
    case Both(l, r, lazy) =>
      (match RunExpr(p, l, env, h, trace, fuel)
       case Value(a, trace1) =>
         if lazy && a == 0 then Value(0, trace1)
         else (match RunExpr(p, r, env, h, trace1, fuel)
               case Value(b, trace2) => Value(BitwiseAnd(a, b), trace2)
               case o => o)
       case o => o)
    case Either(l, r, lazy) =>
      (match RunExpr(p, l, env, h, trace, fuel)
       case Value(a, trace1) =>
         if lazy && a != 0 then Value(1, trace1)
         else (match RunExpr(p, r, env, h, trace1, fuel)
               case Value(b, trace2) => Value(Arith(BitOr, a, b).value, trace2)
               case o => o)
       case o => o)
    case Choice(c, t, e1) =>
      (match RunExpr(p, c, env, h, trace, fuel)
       case Value(v, trace1) => RunExpr(p, if v != 0 then t else e1, env, h, trace1, fuel)
       case o => o)
    case Apply(f, args) =>
      (match RunArgs(p, args, env, h, trace, fuel)
       case Values(vs, trace1) =>
         if fuel == 0 then ExprExit(Timeout, trace1) else RunCall(p, f, vs, h, trace1, fuel - 1)
       case ArgsExit(exit, trace1) => ExprExit(exit, trace1))
  }

  function RunArgs(p: seq<Func>, args: Args, env: Env, h: Shield, trace: seq<Event>, fuel: nat): ArgsOut
    decreases fuel, 4, args
  {
    match args
    case NoArgs => Values([], trace)
    case More(e, rest) =>
      match RunExpr(p, e, env, h, trace, fuel)
      case Value(v, trace1) =>
        (match RunArgs(p, rest, env, h, trace1, fuel)
         case Values(vs, trace2) => Values([v] + vs, trace2)
         case o => o)
      case ExprExit(exit, trace1) => ArgsExit(exit, trace1)
  }

  function RunStmt(p: seq<Func>, s: Stmt, env: Env, h: Shield, trace: seq<Event>, fuel: nat): StmtOut
    decreases fuel, 5, s
  {
    match s
    case Skip => Normal(env, trace)
    case Block(s1) => RunStmt(p, s1, env, h, trace, fuel)
    case Seq(a, b) =>
      (match RunStmt(p, a, env, h, trace, fuel)
       case Normal(env1, trace1) => RunStmt(p, b, env1, h, trace1, fuel)
       case o => o)
    case Let(x, e, s1) =>
      (match RunExpr(p, e, env, h, trace, fuel)
       case Value(v, trace1) => Hide(RunStmt(p, s1, env[x := v], h, trace1, fuel), x, env)
       case ExprExit(exit, trace1) => StmtExit(exit, env, trace1))
    case Assign(x, e) =>
      (match RunExpr(p, e, env, h, trace, fuel)
       case Value(v, trace1) => Normal(env[x := v], trace1)
       case ExprExit(exit, trace1) => StmtExit(exit, env, trace1))
    case Eval(e) =>
      (match RunExpr(p, e, env, h, trace, fuel)
       case Value(_, trace1) => Normal(env, trace1)
       case ExprExit(exit, trace1) => StmtExit(exit, env, trace1))
    case Observe(iid, e) =>
      (match RunExpr(p, e, env, h, trace, fuel)
       case Value(v, trace1) => Normal(env, trace1 + [Event(iid, [v])])
       case ExprExit(exit, trace1) => StmtExit(exit, env, trace1))
    case Assert(e) =>
      (match RunExpr(p, e, env, h, trace, fuel)
       case Value(v, trace1) =>
         if v == 0 then StmtExit(Crashed(AssertFailed), env, trace1) else Normal(env, trace1)
       case ExprExit(exit, trace1) => StmtExit(exit, env, trace1))
    case If(c, t) =>
      (match RunExpr(p, c, env, h, trace, fuel)
       case Value(v, trace1) => if v != 0 then RunStmt(p, t, env, h, trace1, fuel) else Normal(env, trace1)
       case ExprExit(exit, trace1) => StmtExit(exit, env, trace1))
    case IfElse(c, t, f) =>
      (match RunExpr(p, c, env, h, trace, fuel)
       case Value(v, trace1) => RunStmt(p, if v != 0 then t else f, env, h, trace1, fuel)
       case ExprExit(exit, trace1) => StmtExit(exit, env, trace1))
    case While(c, s1) =>
      if fuel == 0 then StmtExit(Timeout, env, trace)
      else (match RunExpr(p, c, env, h, trace, fuel)
            case Value(v, trace1) =>
              if v == 0 then Normal(env, trace1)
              else (match RunStmt(p, s1, env, h, trace1, fuel)
                    case Normal(env1, trace2) => RunStmt(p, s, env1, h, trace2, fuel - 1)
                    case o => o)
            case ExprExit(exit, trace1) => StmtExit(exit, env, trace1))
    case DoWhile(s1, c) =>
      if fuel == 0 then StmtExit(Timeout, env, trace)
      else (match RunStmt(p, s1, env, h, trace, fuel)
            case Normal(env1, trace1) =>
              (match RunExpr(p, c, env1, h, trace1, fuel)
               case Value(v, trace2) =>
                 if v == 0 then Normal(env1, trace2) else RunStmt(p, s, env1, h, trace2, fuel - 1)
               case ExprExit(exit, trace2) => StmtExit(exit, env1, trace2))
            case o => o)
    case Return(e) =>
      (match RunExpr(p, e, env, h, trace, fuel)
       case Value(v, trace1) => Returned(v, trace1)
       case ExprExit(exit, trace1) => StmtExit(exit, env, trace1))
    case Throw(atomid, e) =>
      (match RunExpr(p, e, env, h, trace, fuel)
       case Value(v, trace1) => StmtExit(Raised(h, atomid, v), env, trace1)
       case ExprExit(exit, trace1) => StmtExit(exit, env, trace1))
    case OnFail(atomid, x, hb, s1) =>
      match RunStmt(p, s1, env, h.With(atomid), trace, fuel)
      case StmtExit(Caught(k, error), env1, trace1) =>
        if k != |h.types| then StmtExit(Caught(k, error), env1, trace1)
        else if atomid == 0 then RunStmt(p, hb, env1, h, trace1, fuel)
        else Hide(RunStmt(p, hb, env1[x := error], h, trace1, fuel), x, env1)
      case o => o
  }
}
