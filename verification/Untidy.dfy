// What the emitted code really does, said as a program: some jumps are caught by the label of a handler.
module Untidy {
  import opened Isa
  import opened Source
  import opened Emitter
  import opened Layout

  function Does(s: Stmt): Stmt {
    match s
    case Block(s1) => Block(Does(s1))
    case Seq(a, b) => Seq(Does(a), Does(b))
    case Let(x, e, s1) => Let(x, e, Does(s1))
    case If(c, t) => If(c, Does(t))
    case IfElse(c, t, f) => if EndsWithHandler(t) then If(c, Does(t)) else IfElse(c, Does(t), Does(f))
    case While(c, s1) => if EndsWithHandler(s1) then While(Const(1), If(c, Does(s1))) else While(c, Does(s1))
    case DoWhile(s1, c) => DoWhile(Does(s1), c)
    case OnFail(atomid, x, h, s1) => if EndsWithHandler(h) then Skip else OnFail(atomid, x, Does(h), Does(s1))
    case _ => s
  }

  function DoesFunc(f: Func): Func { Func(f.params, Does(f.body), f.result) }

  function DoesAll(p: seq<Func>): (r: seq<Func>)
    ensures |r| == |p| && forall g :: 0 <= g < |p| ==> r[g] == DoesFunc(p[g])
  {
    seq(|p|, g requires 0 <= g < |p| => DoesFunc(p[g]))
  }

  // No first branch of an if-else, no body of a while and no handler ends with a block which has a handler
  predicate Tidy(s: Stmt) {
    match s
    case Block(s1) => Tidy(s1)
    case Seq(a, b) => Tidy(a) && Tidy(b)
    case Let(_, _, s1) => Tidy(s1)
    case If(_, t) => Tidy(t)
    case IfElse(_, t, f) => !EndsWithHandler(t) && Tidy(t) && Tidy(f)
    case While(_, s1) => !EndsWithHandler(s1) && Tidy(s1)
    case DoWhile(s1, _) => Tidy(s1)
    case OnFail(_, _, h, s1) => !EndsWithHandler(h) && Tidy(h) && Tidy(s1)
    case _ => true
  }

  ghost predicate TidyProgram(p: seq<Func>) { forall f :: 0 <= f < |p| ==> Tidy(p[f].body) }

  // The code does what is written if and only if the program is tidy
  lemma {:induction false} TidyDoes(s: Stmt)
    ensures Tidy(s) <==> Does(s) == s
    decreases s
  {
    match s
    case Block(s1) => TidyDoes(s1);
    case Seq(a, b) => TidyDoes(a); TidyDoes(b);
    case Let(_, _, s1) => TidyDoes(s1);
    case If(_, t) => TidyDoes(t);
    case IfElse(_, t, f) => TidyDoes(t); TidyDoes(f);
    case While(c, s1) => TidyDoes(s1); Smaller(s1, c);
    case DoWhile(s1, _) => TidyDoes(s1);
    case OnFail(_, _, h, s1) => TidyDoes(h); TidyDoes(s1);
    case _ =>
  }

  // A loop is not the body of its own body
  lemma {:induction false} Smaller(s: Stmt, c: Expr)
    ensures If(c, Does(s)) != s
    decreases s
  {
    if s.If? {
      Smaller(s.t, s.c);
    }
  }

  lemma TidyProgramDoes(p: seq<Func>)
    ensures TidyProgram(p) <==> DoesAll(p) == p
  {
    forall f | 0 <= f < |p|
      ensures Tidy(p[f].body) <==> DoesFunc(p[f]) == p[f]
    {
      TidyDoes(p[f].body);
    }
    if DoesAll(p) == p {
      assert forall f :: 0 <= f < |p| ==> DoesFunc(p[f]) == p[f];
    }
  }
}
