// The errors a function may let out, as predicted by the analyser.
module Effects {
  import opened Isa
  import opened Handlers
  import opened Source

  // ---- with the errors of every called function ----

  // Every error which comes out of the calls of an expression
  function CallErrors(e: Expr, known: seq<Errors>): Errors {
    match e
    case Const(_) => {}
    case Var(_) => {}
    case Not(e1) => CallErrors(e1, known)
    case Bin(_, l, r) => CallErrors(l, known) + CallErrors(r, known)
    case Both(l, r, _) => CallErrors(l, known) + CallErrors(r, known)
    case Either(l, r, _) => CallErrors(l, known) + CallErrors(r, known)
    case Choice(c, t, f) => CallErrors(c, known) + CallErrors(t, known) + CallErrors(f, known)
    case Apply(f, args) => ArgsErrors(args, known) + if f < |known| then known[f] else {}
  }

  function ArgsErrors(args: Args, known: seq<Errors>): Errors {
    match args
    case NoArgs => {}
    case More(e, rest) => CallErrors(e, known) + ArgsErrors(rest, known)
  }

  // The functions are known already
  predicate KnownCalls(e: Expr, known: seq<Errors>) {
    match e
    case Const(_) => true
    case Var(_) => true
    case Not(e1) => KnownCalls(e1, known)
    case Bin(_, l, r) => KnownCalls(l, known) && KnownCalls(r, known)
    case Both(l, r, _) => KnownCalls(l, known) && KnownCalls(r, known)
    case Either(l, r, _) => KnownCalls(l, known) && KnownCalls(r, known)
    case Choice(c, t, f) => KnownCalls(c, known) && KnownCalls(t, known) && KnownCalls(f, known)
    case Apply(f, args) => f < |known| && KnownArgs(args, known)
  }

  predicate KnownArgs(args: Args, known: seq<Errors>) {
    args.More? ==> KnownCalls(args.e, known) && KnownArgs(args.rest, known)
  }

  predicate ExprAccepted(e: Expr, known: seq<Errors>, h: Shield) {
    KnownCalls(e, known) && Covers(h, CallErrors(e, known))
  }

  function ExprLeaks(e: Expr, known: seq<Errors>, h: Shield): Errors {
    if h.IsEmpty() then CallErrors(e, known) else {}
  }

  predicate StmtAccepted(s: Stmt, known: seq<Errors>, h: Shield) {
    match s
    case Skip => true
    case Block(s1) => StmtAccepted(s1, known, h)
    case Seq(a, b) => StmtAccepted(a, known, h) && StmtAccepted(b, known, h)
    case Let(_, e, s1) => ExprAccepted(e, known, h) && StmtAccepted(s1, known, h)
    case Assign(_, e) => ExprAccepted(e, known, h)
    case Eval(e) => ExprAccepted(e, known, h)
    case Observe(_, e) => ExprAccepted(e, known, h)
    case Assert(e) => ExprAccepted(e, known, h)
    case If(c, t) => ExprAccepted(c, known, h) && StmtAccepted(t, known, h)
    case IfElse(c, t, f) => ExprAccepted(c, known, h) && StmtAccepted(t, known, h) && StmtAccepted(f, known, h)
    case While(c, s1) => ExprAccepted(c, known, h) && StmtAccepted(s1, known, h)
    case DoWhile(s1, c) => StmtAccepted(s1, known, h) && ExprAccepted(c, known, h)
    case Return(e) => ExprAccepted(e, known, h)
    case Throw(atomid, e) => ExprAccepted(e, known, h) && Covers(h, {atomid})
    case OnFail(atomid, _, hb, s1) =>
      CanRegister(h, atomid) && StmtAccepted(hb, known, h) && StmtAccepted(s1, known, h.With(atomid))
  }

  // What a statement adds to the errors of its function
  function StmtLeaks(s: Stmt, known: seq<Errors>, h: Shield): Errors {
    match s
    case Skip => {}
    case Block(s1) => StmtLeaks(s1, known, h)
    case Seq(a, b) => StmtLeaks(a, known, h) + StmtLeaks(b, known, h)
    case Let(_, e, s1) => ExprLeaks(e, known, h) + StmtLeaks(s1, known, h)
    case Assign(_, e) => ExprLeaks(e, known, h)
    case Eval(e) => ExprLeaks(e, known, h)
    case Observe(_, e) => ExprLeaks(e, known, h)
    case Assert(e) => ExprLeaks(e, known, h)
    case If(c, t) => ExprLeaks(c, known, h) + StmtLeaks(t, known, h)
    case IfElse(c, t, f) => ExprLeaks(c, known, h) + StmtLeaks(t, known, h) + StmtLeaks(f, known, h)
    case While(c, s1) => ExprLeaks(c, known, h) + StmtLeaks(s1, known, h)
    case DoWhile(s1, c) => StmtLeaks(s1, known, h) + ExprLeaks(c, known, h)
    case Return(e) => ExprLeaks(e, known, h)
    case Throw(atomid, e) => ExprLeaks(e, known, h) + if h.IsEmpty() then {atomid} else {}
    case OnFail(atomid, _, hb, s1) => StmtLeaks(hb, known, h) + StmtLeaks(s1, known, h.With(atomid))
  }

  // ---- the analysis, in the order of the visit ----

  // The errors of a called function, as they are known at that time: a function which calls itself has the errors
  // recorded so far
  function Called(f: nat, known: seq<Errors>, own: Errors): Errors {
    if f < |known| then known[f] else if f == |known| then own else {}
  }

  // The errors recorded for the function after the visit of an expression
  function ExprOwn(e: Expr, known: seq<Errors>, h: Shield, own: Errors): Errors {
    match e
    case Const(_) => own
    case Var(_) => own
    case Not(e1) => ExprOwn(e1, known, h, own)
    case Bin(_, l, r) => ExprOwn(r, known, h, ExprOwn(l, known, h, own))
    case Both(l, r, _) => ExprOwn(r, known, h, ExprOwn(l, known, h, own))
    case Either(l, r, _) => ExprOwn(r, known, h, ExprOwn(l, known, h, own))
    case Choice(c, t, f) => ExprOwn(f, known, h, ExprOwn(t, known, h, ExprOwn(c, known, h, own)))
    case Apply(f, args) =>
      var now := ArgsOwn(args, known, h, own);
      if h.IsEmpty() then now + Called(f, known, now) else now
  }

  function ArgsOwn(args: Args, known: seq<Errors>, h: Shield, own: Errors): Errors {
    match args
    case NoArgs => own
    case More(e, rest) => ArgsOwn(rest, known, h, ExprOwn(e, known, h, own))
  }

  // The visit succeeds
  predicate ExprChecked(e: Expr, known: seq<Errors>, h: Shield, own: Errors) {
    match e
    case Const(_) => true
    case Var(_) => true
    case Not(e1) => ExprChecked(e1, known, h, own)
    case Bin(_, l, r) => ExprChecked(l, known, h, own) && ExprChecked(r, known, h, ExprOwn(l, known, h, own))
    case Both(l, r, _) => ExprChecked(l, known, h, own) && ExprChecked(r, known, h, ExprOwn(l, known, h, own))
    case Either(l, r, _) => ExprChecked(l, known, h, own) && ExprChecked(r, known, h, ExprOwn(l, known, h, own))
    case Choice(c, t, f) =>
      var own1 := ExprOwn(c, known, h, own);
      ExprChecked(c, known, h, own) && ExprChecked(t, known, h, own1)
      && ExprChecked(f, known, h, ExprOwn(t, known, h, own1))
    case Apply(f, args) =>
      ArgsChecked(args, known, h, own) && f <= |known| && Covers(h, Called(f, known, ArgsOwn(args, known, h, own)))
  }

  predicate ArgsChecked(args: Args, known: seq<Errors>, h: Shield, own: Errors) {
    args.More? ==>
      ExprChecked(args.e, known, h, own) && ArgsChecked(args.rest, known, h, ExprOwn(args.e, known, h, own))
  }

  // The code of a handler is visited before the code it protects
  function StmtOwn(s: Stmt, known: seq<Errors>, h: Shield, own: Errors): Errors {
    match s
    case Skip => own
    case Block(s1) => StmtOwn(s1, known, h, own)
    case Seq(a, b) => StmtOwn(b, known, h, StmtOwn(a, known, h, own))
    case Let(_, e, s1) => StmtOwn(s1, known, h, ExprOwn(e, known, h, own))
    case Assign(_, e) => ExprOwn(e, known, h, own)
    case Eval(e) => ExprOwn(e, known, h, own)
    case Observe(_, e) => ExprOwn(e, known, h, own)
    case Assert(e) => ExprOwn(e, known, h, own)
    case If(c, t) => StmtOwn(t, known, h, ExprOwn(c, known, h, own))
    case IfElse(c, t, f) => StmtOwn(f, known, h, StmtOwn(t, known, h, ExprOwn(c, known, h, own)))
    case While(c, s1) => StmtOwn(s1, known, h, ExprOwn(c, known, h, own))
    case DoWhile(s1, c) => ExprOwn(c, known, h, StmtOwn(s1, known, h, own))
    case Return(e) => ExprOwn(e, known, h, own)
    case Throw(atomid, e) => ExprOwn(e, known, h, own) + if h.IsEmpty() then {atomid} else {}
    case OnFail(atomid, _, hb, s1) => StmtOwn(s1, known, h.With(atomid), StmtOwn(hb, known, h, own))
  }

  predicate StmtChecked(s: Stmt, known: seq<Errors>, h: Shield, own: Errors) {
    match s
    case Skip => true
    case Block(s1) => StmtChecked(s1, known, h, own)
    case Seq(a, b) => StmtChecked(a, known, h, own) && StmtChecked(b, known, h, StmtOwn(a, known, h, own))
    case Let(_, e, s1) => ExprChecked(e, known, h, own) && StmtChecked(s1, known, h, ExprOwn(e, known, h, own))
    case Assign(_, e) => ExprChecked(e, known, h, own)
    case Eval(e) => ExprChecked(e, known, h, own)
    case Observe(_, e) => ExprChecked(e, known, h, own)
    case Assert(e) => ExprChecked(e, known, h, own)
    case If(c, t) => ExprChecked(c, known, h, own) && StmtChecked(t, known, h, ExprOwn(c, known, h, own))
    case IfElse(c, t, f) =>
      var own1 := ExprOwn(c, known, h, own);
      ExprChecked(c, known, h, own) && StmtChecked(t, known, h, own1)
      && StmtChecked(f, known, h, StmtOwn(t, known, h, own1))
    case While(c, s1) => ExprChecked(c, known, h, own) && StmtChecked(s1, known, h, ExprOwn(c, known, h, own))
    case DoWhile(s1, c) => StmtChecked(s1, known, h, own) && ExprChecked(c, known, h, StmtOwn(s1, known, h, own))
    case Return(e) => ExprChecked(e, known, h, own)
    case Throw(atomid, e) => ExprChecked(e, known, h, own) && Covers(h, {atomid})
    case OnFail(atomid, _, hb, s1) =>
      CanRegister(h, atomid) && StmtChecked(hb, known, h, own)
      && StmtChecked(s1, known, h.With(atomid), StmtOwn(hb, known, h, own))
  }

  // A function is analysed once the other functions it calls are
  function Raises(p: seq<Func>): (r: seq<Errors>)
    ensures |r| == |p|
  {
    if p == [] then [] else
      var k := |p| - 1;
      var known := Raises(p[..k]);
      known + [StmtOwn(WholeBody(p[k]), known, BARE, {})]
  }

  // The programs which the analyser accepts
  predicate Accepted(p: seq<Func>) {
    forall f :: 0 <= f < |p| ==> StmtChecked(WholeBody(p[f]), Raises(p)[..f], BARE, {})
  }

  lemma {:induction false} RaisesOf(p: seq<Func>, f: nat)
    requires f < |p|
    ensures Raises(p)[f] == StmtOwn(WholeBody(p[f]), Raises(p)[..f], BARE, {})
    decreases |p|
  {
    var k := |p| - 1;
    assert Raises(p)[..k] == Raises(p[..k]);
    if f < k {
      RaisesOf(p[..k], f);
      assert Raises(p)[..f] == Raises(p[..k])[..f];
    }
  }

  // ---- functions which call themselves ----

  // Where the function calls itself, either no handler is in scope, or there is one for each of its errors, those
  // which are found later included
  predicate ExprSteady(e: Expr, self: nat, final: Errors, h: Shield) {
    match e
    case Const(_) => true
    case Var(_) => true
    case Not(e1) => ExprSteady(e1, self, final, h)
    case Bin(_, l, r) => ExprSteady(l, self, final, h) && ExprSteady(r, self, final, h)
    case Both(l, r, _) => ExprSteady(l, self, final, h) && ExprSteady(r, self, final, h)
    case Either(l, r, _) => ExprSteady(l, self, final, h) && ExprSteady(r, self, final, h)
    case Choice(c, t, f) => ExprSteady(c, self, final, h) && ExprSteady(t, self, final, h)
      && ExprSteady(f, self, final, h)
    case Apply(f, args) => ArgsSteady(args, self, final, h) && (f == self ==> Covers(h, final))
  }

  predicate ArgsSteady(args: Args, self: nat, final: Errors, h: Shield) {
    args.More? ==> ExprSteady(args.e, self, final, h) && ArgsSteady(args.rest, self, final, h)
  }

  predicate StmtSteady(s: Stmt, self: nat, final: Errors, h: Shield) {
    match s
    case Skip => true
    case Block(s1) => StmtSteady(s1, self, final, h)
    case Seq(a, b) => StmtSteady(a, self, final, h) && StmtSteady(b, self, final, h)
    case Let(_, e, s1) => ExprSteady(e, self, final, h) && StmtSteady(s1, self, final, h)
    case Assign(_, e) => ExprSteady(e, self, final, h)
    case Eval(e) => ExprSteady(e, self, final, h)
    case Observe(_, e) => ExprSteady(e, self, final, h)
    case Assert(e) => ExprSteady(e, self, final, h)
    case If(c, t) => ExprSteady(c, self, final, h) && StmtSteady(t, self, final, h)
    case IfElse(c, t, f) => ExprSteady(c, self, final, h) && StmtSteady(t, self, final, h)
      && StmtSteady(f, self, final, h)
    case While(c, s1) => ExprSteady(c, self, final, h) && StmtSteady(s1, self, final, h)
    case DoWhile(s1, c) => StmtSteady(s1, self, final, h) && ExprSteady(c, self, final, h)
    case Return(e) => ExprSteady(e, self, final, h)
    case Throw(_, e) => ExprSteady(e, self, final, h)
    case OnFail(atomid, _, hb, s1) => StmtSteady(hb, self, final, h) && StmtSteady(s1, self, final, h.With(atomid))
  }

  predicate Steady(p: seq<Func>) {
    forall f :: 0 <= f < |p| ==> StmtSteady(WholeBody(p[f]), f, Raises(p)[f], BARE)
  }

  // Every function would be accepted again, with the errors of all the functions it calls, itself included, and
  // would not get an error more
  predicate Settled(p: seq<Func>) {
    forall f :: 0 <= f < |p| ==>
      && StmtAccepted(WholeBody(p[f]), Raises(p)[..f + 1], BARE)
      && StmtLeaks(WholeBody(p[f]), Raises(p)[..f + 1], BARE) <= Raises(p)[f]
  }

  lemma CoversBoth(h: Shield, a: Errors, b: Errors)
    ensures Covers(h, a + b) <==> Covers(h, a) && Covers(h, b)
  {
    if Covers(h, a + b) {
      assert forall x :: x in a || x in b ==> x in a + b;
    }
  }

  lemma {:induction false} ExprOwnGrows(e: Expr, known: seq<Errors>, h: Shield, own: Errors)
    ensures own <= ExprOwn(e, known, h, own)
    decreases e, 0
  {
    match e
    case Const(_) =>
    case Var(_) =>
    case Not(e1) => ExprOwnGrows(e1, known, h, own);
    case Bin(_, l, r) => ExprOwnGrows(l, known, h, own); ExprOwnGrows(r, known, h, ExprOwn(l, known, h, own));
    case Both(l, r, _) => ExprOwnGrows(l, known, h, own); ExprOwnGrows(r, known, h, ExprOwn(l, known, h, own));
    case Either(l, r, _) => ExprOwnGrows(l, known, h, own); ExprOwnGrows(r, known, h, ExprOwn(l, known, h, own));
    case Choice(c, t, f) =>
      var own1 := ExprOwn(c, known, h, own);
      ExprOwnGrows(c, known, h, own);
      ExprOwnGrows(t, known, h, own1);
      ExprOwnGrows(f, known, h, ExprOwn(t, known, h, own1));
    case Apply(_, args) => ArgsOwnGrows(args, known, h, own);
  }

  lemma {:induction false} ArgsOwnGrows(args: Args, known: seq<Errors>, h: Shield, own: Errors)
    ensures own <= ArgsOwn(args, known, h, own)
    decreases args, 0
  {
    if args.More? {
      ExprOwnGrows(args.e, known, h, own);
      ArgsOwnGrows(args.rest, known, h, ExprOwn(args.e, known, h, own));
    }
  }

  lemma {:induction false} StmtOwnGrows(s: Stmt, known: seq<Errors>, h: Shield, own: Errors)
    ensures own <= StmtOwn(s, known, h, own)
    decreases s
  {
    hide ExprOwn;
    match s
    case Skip =>
    case Block(s1) => StmtOwnGrows(s1, known, h, own);
    case Seq(a, b) => StmtOwnGrows(a, known, h, own); StmtOwnGrows(b, known, h, StmtOwn(a, known, h, own));
    case Let(_, e, s1) => ExprOwnGrows(e, known, h, own); StmtOwnGrows(s1, known, h, ExprOwn(e, known, h, own));
    case Assign(_, e) => ExprOwnGrows(e, known, h, own);
    case Eval(e) => ExprOwnGrows(e, known, h, own);
    case Observe(_, e) => ExprOwnGrows(e, known, h, own);
    case Assert(e) => ExprOwnGrows(e, known, h, own);
    case If(c, t) => ExprOwnGrows(c, known, h, own); StmtOwnGrows(t, known, h, ExprOwn(c, known, h, own));
    case IfElse(c, t, f) =>
      var own1 := ExprOwn(c, known, h, own);
      ExprOwnGrows(c, known, h, own);
      StmtOwnGrows(t, known, h, own1);
      StmtOwnGrows(f, known, h, StmtOwn(t, known, h, own1));
    case While(c, s1) => ExprOwnGrows(c, known, h, own); StmtOwnGrows(s1, known, h, ExprOwn(c, known, h, own));
    case DoWhile(s1, c) => StmtOwnGrows(s1, known, h, own); ExprOwnGrows(c, known, h, StmtOwn(s1, known, h, own));
    case Return(e) => ExprOwnGrows(e, known, h, own);
    case Throw(_, e) => ExprOwnGrows(e, known, h, own);
    case OnFail(atomid, _, hb, s1) =>
      StmtOwnGrows(hb, known, h, own);
      StmtOwnGrows(s1, known, h.With(atomid), StmtOwn(hb, known, h, own));
  }

  // Checked along the visit, with errors which end up in 'final': then the expression would be accepted again with
  // the final errors if and only if it is steady
  lemma {:induction false} ExprSettles(e: Expr, known: seq<Errors>, h: Shield, own: Errors, final: Errors)
    requires ExprChecked(e, known, h, own) && ExprOwn(e, known, h, own) <= final
    ensures KnownCalls(e, known + [final])
    ensures ExprSteady(e, |known|, final, h) <==> Covers(h, CallErrors(e, known + [final]))
    ensures h.IsEmpty() ==> CallErrors(e, known + [final]) <= final
    decreases e, 1
  {
    match e
    case Const(_) =>
    case Var(_) =>
    case Not(e1) => ExprSettles(e1, known, h, own, final);
    case Bin(_, l, r) => PairSettles(e, l, r, known, h, own, final);
    case Both(l, r, _) => PairSettles(e, l, r, known, h, own, final);
    case Either(l, r, _) => PairSettles(e, l, r, known, h, own, final);
    case Choice(c, t, f) =>
      var own1 := ExprOwn(c, known, h, own);
      ExprOwnGrows(f, known, h, ExprOwn(t, known, h, own1));
      PairSettles(e, c, t, known, h, own, final);
      ExprSettles(f, known, h, ExprOwn(t, known, h, own1), final);
      CoversBoth(h, CallErrors(c, known + [final]) + CallErrors(t, known + [final]), CallErrors(f, known + [final]));
    case Apply(f, args) =>
      ArgsSettle(args, known, h, own, final);
      CoversBoth(h, ArgsErrors(args, known + [final]), (known + [final])[f]);
      assert f < |known| ==> (known + [final])[f] == known[f];
  }

  lemma PairSettles(e: Expr, l: Expr, r: Expr, known: seq<Errors>, h: Shield, own: Errors, final: Errors)
    requires l < e && r < e
    requires ExprChecked(l, known, h, own) && ExprChecked(r, known, h, ExprOwn(l, known, h, own))
    requires ExprOwn(r, known, h, ExprOwn(l, known, h, own)) <= final
    ensures KnownCalls(l, known + [final]) && KnownCalls(r, known + [final])
    ensures ExprSteady(l, |known|, final, h) && ExprSteady(r, |known|, final, h)
       <==> Covers(h, CallErrors(l, known + [final]) + CallErrors(r, known + [final]))
    ensures h.IsEmpty() ==> CallErrors(l, known + [final]) + CallErrors(r, known + [final]) <= final
    decreases e, 0
  {
    hide ExprOwn;
    hide CallErrors;
    hide ExprSteady;
    ExprOwnGrows(r, known, h, ExprOwn(l, known, h, own));
    ExprSettles(l, known, h, own, final);
    ExprSettles(r, known, h, ExprOwn(l, known, h, own), final);
    CoversBoth(h, CallErrors(l, known + [final]), CallErrors(r, known + [final]));
  }

  lemma {:induction false} ArgsSettle(args: Args, known: seq<Errors>, h: Shield, own: Errors, final: Errors)
    requires ArgsChecked(args, known, h, own) && ArgsOwn(args, known, h, own) <= final
    ensures KnownArgs(args, known + [final])
    ensures ArgsSteady(args, |known|, final, h) <==> Covers(h, ArgsErrors(args, known + [final]))
    ensures h.IsEmpty() ==> ArgsErrors(args, known + [final]) <= final
    decreases args, 1
  {
    if args.More? {
      var own1 := ExprOwn(args.e, known, h, own);
      ArgsOwnGrows(args.rest, known, h, own1);
      ExprSettles(args.e, known, h, own, final);
      ArgsSettle(args.rest, known, h, own1, final);
      CoversBoth(h, CallErrors(args.e, known + [final]), ArgsErrors(args.rest, known + [final]));
    }
  }

  // The same, as the statements use it
  lemma ExprAgain(e: Expr, known: seq<Errors>, h: Shield, own: Errors, final: Errors)
    requires ExprChecked(e, known, h, own) && ExprOwn(e, known, h, own) <= final
    ensures ExprSteady(e, |known|, final, h) <==> ExprAccepted(e, known + [final], h)
    ensures ExprLeaks(e, known + [final], h) <= final
  {
    hide ExprOwn;
    hide CallErrors;
    ExprSettles(e, known, h, own, final);
  }

  lemma {:induction false} StmtSettles(s: Stmt, known: seq<Errors>, h: Shield, own: Errors, final: Errors)
    requires StmtChecked(s, known, h, own) && StmtOwn(s, known, h, own) <= final
    ensures StmtSteady(s, |known|, final, h) <==> StmtAccepted(s, known + [final], h)
    ensures StmtLeaks(s, known + [final], h) <= final
    decreases s, 0
  {
    hide ExprOwn;
    hide ExprChecked;
    hide ExprSteady;
    hide ExprAccepted;
    hide ExprLeaks;
    hide CanRegister;
    hide Covers;
    match s
    case Skip =>
    case Block(s1) => StmtSettles(s1, known, h, own, final);
    case Seq(a, b) =>
      StmtOwnGrows(b, known, h, StmtOwn(a, known, h, own));
      StmtSettles(a, known, h, own, final);
      StmtSettles(b, known, h, StmtOwn(a, known, h, own), final);
    case Let(_, e, s1) => ThenSettles(e, s1, known, h, own, final);
    case Assign(_, e) => ExprAgain(e, known, h, own, final);
    case Eval(e) => ExprAgain(e, known, h, own, final);
    case Observe(_, e) => ExprAgain(e, known, h, own, final);
    case Assert(e) => ExprAgain(e, known, h, own, final);
    case If(c, t) => ThenSettles(c, t, known, h, own, final);
    case IfElse(c, t, f) =>
      var own1 := StmtOwn(t, known, h, ExprOwn(c, known, h, own));
      StmtOwnGrows(f, known, h, own1);
      ThenSettles(c, t, known, h, own, final);
      StmtSettles(f, known, h, own1, final);
    case While(c, s1) => ThenSettles(c, s1, known, h, own, final);
    case DoWhile(s1, c) =>
      ExprOwnGrows(c, known, h, StmtOwn(s1, known, h, own));
      StmtSettles(s1, known, h, own, final);
      ExprAgain(c, known, h, StmtOwn(s1, known, h, own), final);
    case Return(e) => ExprAgain(e, known, h, own, final);
    case Throw(_, e) => ExprAgain(e, known, h, own, final);
    case OnFail(atomid, _, hb, s1) =>
      var own1 := StmtOwn(hb, known, h, own);
      StmtOwnGrows(s1, known, h.With(atomid), own1);
      StmtSettles(hb, known, h, own, final);
      StmtSettles(s1, known, h.With(atomid), own1, final);
  }

  lemma ThenSettles(e: Expr, s: Stmt, known: seq<Errors>, h: Shield, own: Errors, final: Errors)
    requires ExprChecked(e, known, h, own) && StmtChecked(s, known, h, ExprOwn(e, known, h, own))
    requires StmtOwn(s, known, h, ExprOwn(e, known, h, own)) <= final
    ensures ExprSteady(e, |known|, final, h) <==> ExprAccepted(e, known + [final], h)
    ensures StmtSteady(s, |known|, final, h) <==> StmtAccepted(s, known + [final], h)
    ensures ExprLeaks(e, known + [final], h) <= final && StmtLeaks(s, known + [final], h) <= final
    decreases s, 1
  {
    hide *;
    var own1 := ExprOwn(e, known, h, own);
    StmtOwnGrows(s, known, h, own1);
    ExprAgain(e, known, h, own, final);
    StmtSettles(s, known, h, own1, final);
  }

  lemma FuncSettles(p: seq<Func>, f: nat)
    requires f < |p| && StmtChecked(WholeBody(p[f]), Raises(p)[..f], BARE, {})
    ensures StmtSteady(WholeBody(p[f]), f, Raises(p)[f], BARE)
        <==> StmtAccepted(WholeBody(p[f]), Raises(p)[..f + 1], BARE)
    ensures StmtLeaks(WholeBody(p[f]), Raises(p)[..f + 1], BARE) <= Raises(p)[f]
  {
    hide *;
    RaisesOf(p, f);
    assert Raises(p)[..f] + [Raises(p)[f]] == Raises(p)[..f + 1];
    StmtSettles(WholeBody(p[f]), Raises(p)[..f], BARE, {}, Raises(p)[f]);
  }

  // An accepted program, analysed again with the errors of every function, is accepted again if and only if it is
  // steady
  lemma SteadyIsSettled(p: seq<Func>)
    requires Accepted(p)
    ensures Steady(p) <==> Settled(p)
  {
    hide StmtChecked;
    hide StmtSteady;
    hide StmtAccepted;
    hide StmtLeaks;
    hide WholeBody;
    hide Raises;
    forall f | 0 <= f < |p|
      ensures StmtSteady(WholeBody(p[f]), f, Raises(p)[f], BARE)
          <==> StmtAccepted(WholeBody(p[f]), Raises(p)[..f + 1], BARE)
      ensures StmtLeaks(WholeBody(p[f]), Raises(p)[..f + 1], BARE) <= Raises(p)[f]
    {
      FuncSettles(p, f);
    }
  }
}
