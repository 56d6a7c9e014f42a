// Where the predicted errors come from. A site of an error is a 'raise' of it, or a call of a function which lets it
// out, outside of the code protected by a handler. The errors predicted for a function are those which have a site in
// it.
module Sites {
  import opened Isa
  import opened Handlers
  import opened Source
  import opened Effects

  // ---- sites ----

  // 'x' is a part of 's' which no handler of 's' protects. The code of a handler is not protected by it.
  predicate Exposes(s: Stmt, x: Stmt) {
    s == x ||
    match s
    case Block(s1) => Exposes(s1, x)
    case Seq(a, b) => Exposes(a, x) || Exposes(b, x)
    case Let(_, _, s1) => Exposes(s1, x)
    case If(_, t) => Exposes(t, x)
    case IfElse(_, t, f) => Exposes(t, x) || Exposes(f, x)
    case While(_, s1) => Exposes(s1, x)
    case DoWhile(s1, _) => Exposes(s1, x)
    case OnFail(_, _, hb, _) => Exposes(hb, x)
    case _ => false
  }

  // The expression evaluated by a statement itself
  function Own(s: Stmt): Option<Expr> {
    match s
    case Let(_, e, _) => Some(e)
    case Assign(_, e) => Some(e)
    case Eval(e) => Some(e)
    case Observe(_, e) => Some(e)
    case Assert(e) => Some(e)
    case If(c, _) => Some(c)
    case IfElse(c, _, _) => Some(c)
    case While(c, _) => Some(c)
    case DoWhile(_, c) => Some(c)
    case Return(e) => Some(e)
    case Throw(_, e) => Some(e)
    case _ => None
  }

  // The function 'g' is called somewhere in an expression
  predicate Calls(e: Expr, g: nat) {
    match e
    case Const(_) => false
    case Var(_) => false
    case Not(e1) => Calls(e1, g)
    case Bin(_, l, r) => Calls(l, g) || Calls(r, g)
    case Both(l, r, _) => Calls(l, g) || Calls(r, g)
    case Either(l, r, _) => Calls(l, g) || Calls(r, g)
    case Choice(c, t, f) => Calls(c, g) || Calls(t, g) || Calls(f, g)
    case Apply(f, args) => f == g || ArgsCall(args, g)
  }

  predicate ArgsCall(args: Args, g: nat) { args.More? && (Calls(args.e, g) || ArgsCall(args.rest, g)) }

  // 'errors' are those of the functions, the one of 's' being the last one
  ghost predicate LetsOut(e: Expr, a: nat, errors: seq<Errors>) {
    exists g :: 0 <= g < |errors| && Calls(e, g) && a in errors[g]
  }

  ghost predicate IsSite(x: Stmt, a: nat, errors: seq<Errors>) {
    (x.Throw? && x.atomid == a) || (Own(x).Some? && LetsOut(Own(x).value, a, errors))
  }

  ghost predicate HasSite(s: Stmt, a: nat, errors: seq<Errors>) {
    exists x :: Exposes(s, x) && IsSite(x, a, errors)
  }

  // ---- the errors recorded along the visit ----

  // Under a handler, nothing is recorded
  lemma {:induction false} ExprShielded(e: Expr, known: seq<Errors>, h: Shield, own: Errors)
    requires !h.IsEmpty()
    ensures ExprOwn(e, known, h, own) == own
    decreases e
  {
    match e
    case Const(_) =>
    case Var(_) =>
    case Not(e1) => ExprShielded(e1, known, h, own);
    case Bin(_, l, r) => ExprShielded(l, known, h, own); ExprShielded(r, known, h, own);
    case Both(l, r, _) => ExprShielded(l, known, h, own); ExprShielded(r, known, h, own);
    case Either(l, r, _) => ExprShielded(l, known, h, own); ExprShielded(r, known, h, own);
    case Choice(c, t, f) =>
      ExprShielded(c, known, h, own);
      ExprShielded(t, known, h, own);
      ExprShielded(f, known, h, own);
    case Apply(_, args) => ArgsShielded(args, known, h, own);
  }

  lemma {:induction false} ArgsShielded(args: Args, known: seq<Errors>, h: Shield, own: Errors)
    requires !h.IsEmpty()
    ensures ArgsOwn(args, known, h, own) == own
    decreases args
  {
    if args.More? {
      ExprShielded(args.e, known, h, own);
      ArgsShielded(args.rest, known, h, own);
    }
  }

  lemma {:induction false} StmtShielded(s: Stmt, known: seq<Errors>, h: Shield, own: Errors)
    requires !h.IsEmpty()
    ensures StmtOwn(s, known, h, own) == own
    decreases s
  {
    if Own(s).Some? {
      ExprShielded(Own(s).value, known, h, own);
    }
    match s
    case Block(s1) => StmtShielded(s1, known, h, own);
    case Seq(a, b) => StmtShielded(a, known, h, own); StmtShielded(b, known, h, own);
    case Let(_, _, s1) => StmtShielded(s1, known, h, own);
    case If(_, t) => StmtShielded(t, known, h, own);
    case IfElse(_, t, f) => StmtShielded(t, known, h, own); StmtShielded(f, known, h, own);
    case While(_, s1) => StmtShielded(s1, known, h, own);
    case DoWhile(s1, _) => StmtShielded(s1, known, h, own);
    case OnFail(atomid, _, hb, s1) => StmtShielded(hb, known, h, own); StmtShielded(s1, known, h.With(atomid), own);
    case _ =>
  }

  // The call of the function itself brings nothing: its errors are those recorded already
  lemma {:induction false} ExprSites(e: Expr, known: seq<Errors>, own: Errors, a: nat)
    ensures a in ExprOwn(e, known, BARE, own) <==> a in own || LetsOut(e, a, known)
    decreases e
  {
    match e
    case Const(_) =>
    case Var(_) =>
    case Not(e1) => ExprSites(e1, known, own, a); Inside(e, e1, known, a);
    case Bin(_, l, r) =>
      ExprSites(l, known, own, a);
      ExprSites(r, known, ExprOwn(l, known, BARE, own), a);
      Inside(e, l, known, a);
      Inside(e, r, known, a);
    case Both(l, r, _) =>
      ExprSites(l, known, own, a);
      ExprSites(r, known, ExprOwn(l, known, BARE, own), a);
      Inside(e, l, known, a);
      Inside(e, r, known, a);
    case Either(l, r, _) =>
      ExprSites(l, known, own, a);
      ExprSites(r, known, ExprOwn(l, known, BARE, own), a);
      Inside(e, l, known, a);
      Inside(e, r, known, a);
    case Choice(c, t, f) =>
      var own1 := ExprOwn(c, known, BARE, own);
      ExprSites(c, known, own, a);
      ExprSites(t, known, own1, a);
      ExprSites(f, known, ExprOwn(t, known, BARE, own1), a);
      Inside(e, c, known, a);
      Inside(e, t, known, a);
      Inside(e, f, known, a);
    case Apply(f, args) => ApplySites(f, args, known, own, a);
  }

  lemma ApplySites(f: nat, args: Args, known: seq<Errors>, own: Errors, a: nat)
    ensures a in ExprOwn(Apply(f, args), known, BARE, own) <==> a in own || LetsOut(Apply(f, args), a, known)
    decreases args, 1
  {
    ArgsSites(args, known, own, a);
    hide ArgsOwn;
    if f < |known| && a in known[f] {
      assert Calls(Apply(f, args), f);
    }
    if ArgsLetOut(args, a, known) {
      var g :| 0 <= g < |known| && ArgsCall(args, g) && a in known[g];
      assert Calls(Apply(f, args), g);
    }
  }

  ghost predicate ArgsLetOut(args: Args, a: nat, known: seq<Errors>) {
    exists g :: 0 <= g < |known| && ArgsCall(args, g) && a in known[g]
  }

  lemma {:induction false} ArgsSites(args: Args, known: seq<Errors>, own: Errors, a: nat)
    ensures a in ArgsOwn(args, known, BARE, own) <==> a in own || ArgsLetOut(args, a, known)
    decreases args, 0
  {
    if args.More? {
      ExprSites(args.e, known, own, a);
      ArgsSites(args.rest, known, ExprOwn(args.e, known, BARE, own), a);
      if LetsOut(args.e, a, known) {
        var g :| 0 <= g < |known| && Calls(args.e, g) && a in known[g];
        assert ArgsCall(args, g);
      }
      if ArgsLetOut(args.rest, a, known) {
        var g :| 0 <= g < |known| && ArgsCall(args.rest, g) && a in known[g];
        assert ArgsCall(args, g);
      }
    }
  }

  lemma Inside(e: Expr, e1: Expr, known: seq<Errors>, a: nat)
    requires forall g: nat :: Calls(e1, g) ==> Calls(e, g)
    ensures LetsOut(e1, a, known) ==> LetsOut(e, a, known)
  {
  }

  lemma PartHasSite(s: Stmt, s1: Stmt, a: nat, errors: seq<Errors>)
    requires forall x :: Exposes(s1, x) ==> Exposes(s, x)
    ensures HasSite(s1, a, errors) ==> HasSite(s, a, errors)
  {
  }

  lemma SelfSite(s: Stmt, a: nat, errors: seq<Errors>)
    ensures IsSite(s, a, errors) ==> HasSite(s, a, errors)
  {
    assert Exposes(s, s);
  }

  // Outside of any handler, the visit records exactly the errors which have a site
  lemma {:induction false} StmtSites(s: Stmt, known: seq<Errors>, own: Errors, a: nat)
    ensures a in StmtOwn(s, known, BARE, own) <==> a in own || HasSite(s, a, known)
    decreases s
  {
    SelfSite(s, a, known);
    var own1 := own;
    if Own(s).Some? && !s.DoWhile? {
      ExprSites(Own(s).value, known, own, a);
      own1 := ExprOwn(Own(s).value, known, BARE, own);
    }
    hide ExprOwn;
    match s
    case Block(s1) => StmtSites(s1, known, own, a); PartHasSite(s, s1, a, known);
    case Seq(s1, s2) =>
      StmtSites(s1, known, own, a);
      StmtSites(s2, known, StmtOwn(s1, known, BARE, own), a);
      PartHasSite(s, s1, a, known);
      PartHasSite(s, s2, a, known);
    case Let(_, _, s1) => StmtSites(s1, known, own1, a); PartHasSite(s, s1, a, known);
    case If(_, t) => StmtSites(t, known, own1, a); PartHasSite(s, t, a, known);
    case IfElse(_, t, f) =>
      StmtSites(t, known, own1, a);
      StmtSites(f, known, StmtOwn(t, known, BARE, own1), a);
      PartHasSite(s, t, a, known);
      PartHasSite(s, f, a, known);
    case While(_, s1) => StmtSites(s1, known, own1, a); PartHasSite(s, s1, a, known);
    case DoWhile(s1, c) =>
      StmtSites(s1, known, own, a);
      ExprSites(c, known, StmtOwn(s1, known, BARE, own), a);
      PartHasSite(s, s1, a, known);
    case OnFail(atomid, _, hb, s1) =>
      StmtSites(hb, known, own, a);
      StmtShielded(s1, known, BARE.With(atomid), StmtOwn(hb, known, BARE, own));
      PartHasSite(s, hb, a, known);
    case _ =>
  }

  // ---- programs ----

  // The errors of a function are those which have a site in it; calls of itself are sites too
  lemma RaisesAreSites(p: seq<Func>, f: nat, a: nat)
    requires f < |p|
    ensures a in Raises(p)[f] <==> HasSite(WholeBody(p[f]), a, Raises(p)[..f])
    ensures a in Raises(p)[f] <==> HasSite(WholeBody(p[f]), a, Raises(p)[..f + 1])
  {
    var body := WholeBody(p[f]);
    var known := Raises(p)[..f];
    RaisesOf(p, f);
    StmtSites(body, known, {}, a);
    hide StmtOwn;
    var all := Raises(p)[..f + 1];
    assert all == known + [Raises(p)[f]];
    if HasSite(body, a, known) {
      MoreSites(body, a, known, all);
    }
    if HasSite(body, a, all) && a !in Raises(p)[f] {
      SameSites(body, a, known, Raises(p)[f]);
    }
  }

  lemma MoreSites(s: Stmt, a: nat, some: seq<Errors>, all: seq<Errors>)
    requires |some| <= |all| && forall g :: 0 <= g < |some| ==> some[g] <= all[g]
    ensures HasSite(s, a, some) ==> HasSite(s, a, all)
  {
    hide Exposes;
    hide Calls;
    if HasSite(s, a, some) {
      var x :| Exposes(s, x) && IsSite(x, a, some);
      if !(x.Throw? && x.atomid == a) {
        var g :| 0 <= g < |some| && Calls(Own(x).value, g) && a in some[g];
        assert Calls(Own(x).value, g) && a in all[g];
      }
      assert IsSite(x, a, all);
    }
  }

  lemma SameSites(s: Stmt, a: nat, known: seq<Errors>, last: Errors)
    requires a !in last && HasSite(s, a, known + [last])
    ensures HasSite(s, a, known)
  {
    hide Exposes;
    hide Calls;
    var all := known + [last];
    var x :| Exposes(s, x) && IsSite(x, a, all);
    if !(x.Throw? && x.atomid == a) {
      var g :| 0 <= g < |all| && Calls(Own(x).value, g) && a in all[g];
      assert g < |known|;
    }
    assert IsSite(x, a, known);
  }

  // A family of sets which has every error with a site
  ghost predicate Closed(p: seq<Func>, sets: seq<Errors>) {
    |sets| == |p| &&
    forall f, a :: 0 <= f < |p| && HasSite(WholeBody(p[f]), a, sets[..f + 1]) ==> a in sets[f]
  }

  // The predicted sets are the least ones
  lemma RaisesAreLeast(p: seq<Func>)
    ensures Closed(p, Raises(p))
    ensures forall sets :: Closed(p, sets) ==> forall f :: 0 <= f < |p| ==> Raises(p)[f] <= sets[f]
  {
    forall f, a | 0 <= f < |p| && HasSite(WholeBody(p[f]), a, Raises(p)[..f + 1])
      ensures a in Raises(p)[f]
    {
      RaisesAreSites(p, f, a);
    }
    forall sets, f | Closed(p, sets) && 0 <= f < |p|
      ensures Raises(p)[f] <= sets[f]
    {
      LeastUpTo(p, sets, f);
    }
  }

  lemma {:induction false} LeastUpTo(p: seq<Func>, sets: seq<Errors>, f: nat)
    requires Closed(p, sets) && f < |p|
    ensures Raises(p)[f] <= sets[f]
    decreases f
  {
    forall g | 0 <= g < f
      ensures Raises(p)[g] <= sets[g]
    {
      LeastUpTo(p, sets, g);
    }
    forall a | a in Raises(p)[f]
      ensures a in sets[f]
    {
      RaisesAreSites(p, f, a);
      MoreSites(WholeBody(p[f]), a, Raises(p)[..f], sets[..f + 1]);
    }
  }
}
