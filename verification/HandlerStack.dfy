// The error handlers kept by the analyser while it visits a function, and what it records and emits with them.
module HandlerStack {
  import opened Isa
  import opened Handlers
  import opened Source
  import opened Dispatching
  import opened Effects
  import opened Sites

  class OnScopeFailHandlers {
    var typed: seq<Typed>
    var used: seq<bool>
    var any: Handler
    var anyUsed: bool

    ghost predicate Valid()
      reads this
    {
      |used| == |typed| && (any.target == 0 ==> any == UNSET)
    }

    function Value(): Stack
      reads this
    {
      Stack(typed, any)
    }

    // The handlers already chosen for some error, by index
    predicate Used(k: nat)
      requires Valid() && k < Value().Size()
      reads this
    {
      if k < |typed| then used[k] else anyUsed
    }

    constructor ()
      ensures Valid() && Value() == NO_HANDLER
    {
      typed, used, any, anyUsed := [], [], UNSET, false;
    }

    method Find(atomid: nat) returns (r: Option<nat>)
      ensures r == Value().Select(atomid)
    {
      var i := 0;
      while i < |typed|
        invariant i <= |typed|
        invariant forall k :: 0 <= k < i ==> typed[k].atomid != atomid
      {
        if typed[i].atomid == atomid {
          ChooseIs(Value(), atomid, i);
          return Some(i);
        }
        i := i + 1;
      }
      ChooseIs(Value(), atomid, |typed|);
      return if any.target == 0 then None else Some(|typed|);
    }

    method MarkAsUsed(atomid: nat) returns (ok: bool)
      requires Valid()
      modifies this`used, this`anyUsed
      ensures Valid() && ok == Value().Select(atomid).Some?
      ensures forall k :: 0 <= k < Value().Size() ==>
        (Used(k) <==> old(Used(k)) || Value().Select(atomid) == Some(k))
    {
      var r := Find(atomid);
      if r.None? {
        return false;
      }
      if r.value < |typed| {
        used := used[r.value := true];
      } else {
        anyUsed := true;
      }
      return true;
    }

    method Add(atomid: nat, lvid: nat, target: nat, scope: int)
      requires Valid()
      modifies this`typed, this`used
      ensures Valid() && Value() == old(Value()).(typed := old(typed) + [Typed(atomid, Handler(lvid, target, scope))])
      ensures used == old(used) + [false]
    {
      typed := typed + [Typed(atomid, Handler(lvid, target, scope))];
      used := used + [false];
    }

    method PopBack()
      requires Valid() && typed != []
      modifies this`typed, this`used
      ensures Valid() && Value() == old(Value()).(typed := old(typed)[..|old(typed)| - 1])
      ensures used == old(used)[..|old(used)| - 1]
    {
      typed := typed[..|typed| - 1];
      used := used[..|used| - 1];
    }

    method SetAny(target: nat, scope: int)
      requires Valid() && target > 0
      modifies this`any, this`anyUsed
      ensures Valid()
      ensures Value() == old(Value()).(any := Handler(0, target, scope)) && !anyUsed
    {
      any, anyUsed := Handler(0, target, scope), false;
    }

    method ResetAny()
      requires Valid()
      modifies this`any, this`anyUsed
      ensures Valid()
      ensures Value() == old(Value()).(any := UNSET) && !anyUsed
    {
      any, anyUsed := UNSET, false;
    }

    // From where variables are released before an error is dispatched
    method OutermostScope() returns (scope: int)
      requires !Value().IsEmpty()
      ensures scope == if Value().HasAny() then any.scope else typed[0].handler.scope
    {
      if any.target != 0 {
        scope := any.scope;
      } else {
        scope := typed[0].handler.scope;
      }
    }
  }

  lemma {:induction false} ChooseFirst(types: seq<nat>, any: bool, atomid: nat, i: nat)
    requires i <= |types| && (i < |types| ==> types[i] == atomid) && forall k :: 0 <= k < i ==> types[k] != atomid
    ensures Choose(types, any, atomid) == if i < |types| then Some(i) else if any then Some(|types|) else None
    decreases |types|
  {
    if types != [] && i > 0 {
      ChooseFirst(types[1..], any, atomid, i - 1);
    }
  }

  lemma ChooseIs(hs: Stack, atomid: nat, i: nat)
    requires i <= |hs.typed| && (i < |hs.typed| ==> hs.typed[i].atomid == atomid)
    requires forall k :: 0 <= k < i ==> hs.typed[k].atomid != atomid
    ensures hs.Select(atomid)
         == if i < |hs.typed| then Some(i) else if hs.any.target != 0 then Some(|hs.typed|) else None
  {
    ChooseFirst(hs.Types(), hs.HasAny(), atomid, i);
  }

  lemma CoversIs(hs: Stack, errors: Errors)
    ensures Covers(ShieldOf(hs), errors) <==> hs.IsEmpty() || forall a :: a in errors ==> hs.Select(a).Some?
  {
  }

  class Analyzer {
    const onScopeFail: OnScopeFailHandlers
    var raisedErrors: Errors
    var out: Code

    constructor ()
      ensures onScopeFail.Valid() && onScopeFail.Value() == NO_HANDLER && fresh(onScopeFail)
      ensures raisedErrors == {} && out == []
    {
      onScopeFail := new OnScopeFailHandlers();
      raisedErrors, out := {}, [];
    }

    // The errors of a called function: they are handled here, or let out. It fails when one has no handler.
    method RaisedErrorsFromFuncCall(errors: Errors) returns (ok: bool)
      requires onScopeFail.Valid()
      modifies this`raisedErrors, onScopeFail`used, onScopeFail`anyUsed
      ensures onScopeFail.Valid()
      ensures ok <==> Covers(ShieldOf(onScopeFail.Value()), errors)
      ensures raisedErrors == old(raisedErrors) + if onScopeFail.Value().IsEmpty() then errors else {}
      ensures forall k :: 0 <= k < onScopeFail.Value().Size() ==>
        (onScopeFail.Used(k) <==>
           (old(onScopeFail.Used(k)) || exists a :: a in errors && onScopeFail.Value().Select(a) == Some(k)))
    {
      CoversIs(onScopeFail.Value(), errors);
      ok := true;
      if onScopeFail.typed == [] && onScopeFail.any.target == 0 {
        raisedErrors := raisedErrors + errors;
        return;
      }
      var left := errors;
      while left != {}
        invariant onScopeFail.Valid() && left <= errors && raisedErrors == old(raisedErrors)
        invariant ok <==> forall a :: a in errors - left ==> onScopeFail.Value().Select(a).Some?
        invariant forall k :: 0 <= k < onScopeFail.Value().Size() ==>
          (onScopeFail.Used(k) <==>
             (old(onScopeFail.Used(k))
              || exists a :: a in errors - left && onScopeFail.Value().Select(a) == Some(k)))
        decreases left
      {
        var a :| a in left;
        var marked := onScopeFail.MarkAsUsed(a);
        ok := ok && marked;
        assert errors - (left - {a}) == (errors - left) + {a};
        left := left - {a};
      }
      assert errors - left == errors;
    }

    // A direct 'raise': the label of its handler, 0 to leave the function
    method VisitRaise(lvid: nat, atomid: nat) returns (ok: bool)
      requires onScopeFail.Valid()
      modifies this`raisedErrors, this`out, onScopeFail`used, onScopeFail`anyUsed
      ensures onScopeFail.Valid()
      ensures ok <==> Covers(ShieldOf(onScopeFail.Value()), {atomid})
      ensures raisedErrors == old(raisedErrors) + if onScopeFail.Value().IsEmpty() then {atomid} else {}
      ensures out == if !ok then old(out)
                     else old(out) + [Raise(lvid, match onScopeFail.Value().Select(atomid)
                                                  case None => 0
                                                  case Some(k) => onScopeFail.Value().At(k).target, atomid)]
    {
      CoversIs(onScopeFail.Value(), {atomid});
      var labelid := 0;
      if onScopeFail.typed == [] && onScopeFail.any.target == 0 {
        EmptySelects(onScopeFail.Value(), atomid);
        raisedErrors := raisedErrors + {atomid};
      } else {
        var handler := onScopeFail.Find(atomid);
        if handler.None? {
          return false;
        }
        var _ := onScopeFail.MarkAsUsed(atomid);
        labelid := if handler.value < |onScopeFail.typed| then onScopeFail.typed[handler.value].handler.target
                   else onScopeFail.any.target;
      }
      out := out + [Raise(lvid, labelid, atomid)];
      return true;
    }

    method EmitTypedHandlers()
      modifies this`out
      ensures out == old(out) + Chain(onScopeFail.typed)
    {
      hide Chain;
      ghost var chain := Chain(onScopeFail.typed);
      var i := 0;
      while i < |onScopeFail.typed|
        invariant i <= |onScopeFail.typed| && onScopeFail.typed == old(onScopeFail.typed)
        invariant out == old(out) + chain[..i]
      {
        var item := onScopeFail.typed[i];
        out := out + [Jmperrhandler(item.atomid, item.handler.target)];
        assert chain[..i + 1] == chain[..i] + [chain[i]];
        i := i + 1;
      }
      assert chain[..i] == chain;
    }

    // What follows a call: the errors go to the handlers one after the other, 'any' being the last one
    method VisitJzraise(id: nat)
      modifies this`out
      ensures out == old(out) + Dispatch(onScopeFail.Value(), id)
    {
      hide Chain;
      ghost var hs := onScopeFail.Value();
      out := out + [Jzraise(id)];
      if onScopeFail.typed != [] || onScopeFail.any.target != 0 {
        EmitTypedHandlers();
        if onScopeFail.any.target != 0 {
          out := out + [Jmperrhandler(0, onScopeFail.any.target)];
        }
      } else {
        out := out + [Ret(0)];
      }
      assert out == old(out) + ([Jzraise(id)] + OnError(hs));
      out := out + [Label(id)];
    }

    // A handler is registered for the rest of its block: its type must not be handled yet. A typed one is kept anyway,
    // to be removed at the end of the block.
    method RegisterHandler(atomid: nat, lvid: nat, target: nat, scope: int) returns (ok: bool)
      requires onScopeFail.Valid() && target > 0
      modifies this`out, onScopeFail
      ensures onScopeFail.Valid() && ok == CanRegister(ShieldOf(old(onScopeFail.Value())), atomid)
      ensures ok <==>
        old(onScopeFail.any).target == 0
        && (atomid != 0 ==>
              forall k :: 0 <= k < |old(onScopeFail.typed)| ==> old(onScopeFail.typed)[k].atomid != atomid)
      ensures ok ==>
        ShieldOf(onScopeFail.Value()) == ShieldOf(old(onScopeFail.Value())).With(atomid)
      ensures atomid != 0 ==>
        onScopeFail.Value() == old(onScopeFail.Value()).(
          typed := old(onScopeFail.typed) + [Typed(atomid, Handler(lvid, target, scope))])
      ensures atomid == 0 ==>
        onScopeFail.Value()
        == if ok then old(onScopeFail.Value()).(any := Handler(0, target, scope)) else old(onScopeFail.Value())
      ensures out == old(out)
    {
      RegistersIs(onScopeFail.Value(), atomid);
      if atomid != 0 {
        var exists_ := onScopeFail.Find(atomid);
        ok := exists_.None?;
        onScopeFail.Add(atomid, lvid, target, scope);
        TypesGrow(old(onScopeFail.typed), Typed(atomid, Handler(lvid, target, scope)), onScopeFail.any);
      } else {
        ok := onScopeFail.any.target == 0;
        if ok {
          onScopeFail.SetAny(target, scope);
          assert onScopeFail.Value().Types() == Stack(old(onScopeFail.typed), old(onScopeFail.any)).Types();
        }
      }
    }

    // The end of its block: the last handler is removed, which must be that one
    method UnregisterHandler(atomid: nat) returns (ok: bool)
      requires onScopeFail.Valid() && (atomid != 0 ==> onScopeFail.typed != [])
      modifies onScopeFail
      ensures onScopeFail.Valid()
      ensures ok <==> atomid == 0 || old(onScopeFail.typed)[|old(onScopeFail.typed)| - 1].atomid == atomid
      ensures atomid != 0 ==>
        onScopeFail.Value()
        == old(onScopeFail.Value()).(typed := old(onScopeFail.typed)[..|old(onScopeFail.typed)| - 1])
      ensures atomid == 0 ==> onScopeFail.Value() == old(onScopeFail.Value()).(any := UNSET)
    {
      if atomid != 0 {
        ok := onScopeFail.typed[|onScopeFail.typed| - 1].atomid == atomid;
        onScopeFail.PopBack();
      } else {
        onScopeFail.ResetAny();
        ok := true;
      }
    }

    // ---- the visit of a function ----

    // The visit stops at the first error which is refused; 'known' has the errors of the functions visited before
    method VisitExpr(e: Expr, known: seq<Errors>) returns (ok: bool)
      requires onScopeFail.Valid()
      modifies this`raisedErrors, onScopeFail`used, onScopeFail`anyUsed
      ensures onScopeFail.Valid()
      ensures ok <==> ExprChecked(e, known, ShieldOf(onScopeFail.Value()), old(raisedErrors))
      ensures ok ==> raisedErrors == ExprOwn(e, known, ShieldOf(onScopeFail.Value()), old(raisedErrors))
      decreases e
    {
      ok := true;
      match e {
        case Const(_) =>
        case Var(_) =>
        case Not(e1) => ok := VisitExpr(e1, known);
        case Bin(_, l, r) =>
          ok := VisitExpr(l, known);
          if ok {
            ok := VisitExpr(r, known);
          }
        case Both(l, r, _) =>
          ok := VisitExpr(l, known);
          if ok {
            ok := VisitExpr(r, known);
          }
        case Either(l, r, _) =>
          ok := VisitExpr(l, known);
          if ok {
            ok := VisitExpr(r, known);
          }
        case Choice(c, t, f) =>
          ok := VisitExpr(c, known);
          if ok {
            ok := VisitExpr(t, known);
            if ok {
              ok := VisitExpr(f, known);
            }
          }
        case Apply(f, args) =>
          ok := VisitArgs(args, known);
          if ok {
            ok := VisitCall(f, known);
          }
      }
    }

    method VisitArgs(args: Args, known: seq<Errors>) returns (ok: bool)
      requires onScopeFail.Valid()
      modifies this`raisedErrors, onScopeFail`used, onScopeFail`anyUsed
      ensures onScopeFail.Valid()
      ensures ok <==> ArgsChecked(args, known, ShieldOf(onScopeFail.Value()), old(raisedErrors))
      ensures ok ==> raisedErrors == ArgsOwn(args, known, ShieldOf(onScopeFail.Value()), old(raisedErrors))
      decreases args
    {
      ok := true;
      if args.More? {
        ok := VisitExpr(args.e, known);
        if ok {
          ok := VisitArgs(args.rest, known);
        }
      }
    }

    // The function itself is not known yet, but for the errors recorded so far
    method VisitCall(f: nat, known: seq<Errors>) returns (ok: bool)
      requires onScopeFail.Valid()
      modifies this`raisedErrors, onScopeFail`used, onScopeFail`anyUsed
      ensures onScopeFail.Valid()
      ensures ok <==> f <= |known| && Covers(ShieldOf(onScopeFail.Value()), Called(f, known, old(raisedErrors)))
      ensures ok ==>
        raisedErrors == old(raisedErrors)
                        + if onScopeFail.Value().IsEmpty() then Called(f, known, old(raisedErrors)) else {}
    {
      if f > |known| {
        return false;
      }
      ok := RaisedErrorsFromFuncCall(if f < |known| then known[f] else raisedErrors);
    }

    // A statement leaves the handlers as they were
    method VisitStmt(s: Stmt, known: seq<Errors>, labelid: nat, scope: int) returns (ok: bool)
      requires onScopeFail.Valid() && labelid > 0
      modifies this`raisedErrors, this`out, onScopeFail
      ensures onScopeFail.Valid()
      ensures ok <==> StmtChecked(s, known, ShieldOf(old(onScopeFail.Value())), old(raisedErrors))
      ensures ok ==> raisedErrors == StmtOwn(s, known, ShieldOf(old(onScopeFail.Value())), old(raisedErrors))
      ensures ok ==> onScopeFail.Value() == old(onScopeFail.Value())
      decreases s
    {
      hide ExprChecked;
      hide ExprOwn;
      hide Covers;
      hide CanRegister;
      ok := true;
      match s {
        case Skip =>
        case Block(s1) => ok := VisitStmt(s1, known, labelid, scope + 1);
        case Seq(a, b) =>
          ok := VisitStmt(a, known, labelid, scope);
          if ok {
            ok := VisitStmt(b, known, labelid, scope);
          }
        case Let(_, e, s1) =>
          ok := VisitExpr(e, known);
          if ok {
            ok := VisitStmt(s1, known, labelid, scope);
          }
        case Assign(_, e) => ok := VisitExpr(e, known);
        case Eval(e) => ok := VisitExpr(e, known);
        case Observe(_, e) => ok := VisitExpr(e, known);
        case Assert(e) => ok := VisitExpr(e, known);
        case If(c, t) =>
          ok := VisitExpr(c, known);
          if ok {
            ok := VisitStmt(t, known, labelid, scope + 1);
          }
        case IfElse(c, t, f) =>
          ok := VisitExpr(c, known);
          if ok {
            ok := VisitStmt(t, known, labelid, scope + 1);
            if ok {
              ok := VisitStmt(f, known, labelid, scope + 1);
            }
          }
        case While(c, s1) =>
          ok := VisitExpr(c, known);
          if ok {
            ok := VisitStmt(s1, known, labelid, scope + 1);
          }
        case DoWhile(s1, c) =>
          ok := VisitStmt(s1, known, labelid, scope + 1);
          if ok {
            ok := VisitExpr(c, known);
          }
        case Return(e) => ok := VisitExpr(e, known);
        case Throw(atomid, e) =>
          ok := VisitExpr(e, known);
          if ok {
            ok := VisitRaise(0, atomid);
          }
        case OnFail(_, _, _, _) => ok := VisitOnFail(s, known, labelid, scope);
      }
    }

    // The code of the handler, then the code it protects
    method VisitOnFail(s: Stmt, known: seq<Errors>, labelid: nat, scope: int) returns (ok: bool)
      requires onScopeFail.Valid() && labelid > 0 && s.OnFail?
      modifies this`raisedErrors, this`out, onScopeFail
      ensures onScopeFail.Valid()
      ensures ok <==> StmtChecked(s, known, ShieldOf(old(onScopeFail.Value())), old(raisedErrors))
      ensures ok ==> raisedErrors == StmtOwn(s, known, ShieldOf(old(onScopeFail.Value())), old(raisedErrors))
      ensures ok ==> onScopeFail.Value() == old(onScopeFail.Value())
      decreases s, 0
    {
      ok := VisitStmt(s.h, known, labelid, scope + 1);
      if ok {
        ok := RegisterHandler(s.atomid, s.x, labelid, scope);
        if ok {
          ok := VisitStmt(s.s, known, labelid, scope);
          if ok {
            ok := UnregisterHandler(s.atomid);
          }
        }
      }
    }

    // Visiting a function records the errors which have a site in it, and nothing else
    method VisitFunction(p: seq<Func>, f: nat) returns (ok: bool)
      requires onScopeFail.Valid() && onScopeFail.Value() == NO_HANDLER && raisedErrors == {} && f < |p|
      modifies this`raisedErrors, this`out, onScopeFail
      ensures onScopeFail.Valid()
      ensures ok <==> StmtChecked(WholeBody(p[f]), Raises(p)[..f], BARE, {})
      ensures ok ==> forall a :: a in raisedErrors <==> HasSite(WholeBody(p[f]), a, Raises(p)[..f + 1])
      ensures ok ==> raisedErrors == Raises(p)[f]
    {
      RaisesOf(p, f);
      ok := VisitStmt(WholeBody(p[f]), Raises(p)[..f], 1, 0);
      forall a | ok
        ensures a in raisedErrors <==> HasSite(WholeBody(p[f]), a, Raises(p)[..f + 1])
      {
        RaisesAreSites(p, f, a);
      }
    }
  }

  // A handler is accepted if and only if no handler is in scope which would get its error
  lemma RegistersIs(hs: Stack, atomid: nat)
    ensures CanRegister(ShieldOf(hs), atomid)
      <==> !hs.HasAny() && (atomid != 0 ==> forall k :: 0 <= k < |hs.typed| ==> hs.typed[k].atomid != atomid)
  {
    assert forall k :: 0 <= k < |hs.typed| ==> hs.Types()[k] == hs.typed[k].atomid && hs.Types()[k] in hs.Types();
    if atomid != 0 && forall k :: 0 <= k < |hs.typed| ==> hs.typed[k].atomid != atomid {
      ChooseIs(hs, atomid, |hs.typed|);
    }
  }

  lemma EmptySelects(hs: Stack, atomid: nat)
    requires hs.IsEmpty()
    ensures hs.Select(atomid) == None
  {
  }

  lemma TypesGrow(typed: seq<Typed>, t: Typed, any: Handler)
    ensures Stack(typed + [t], any).Types() == Stack(typed, any).Types() + [t.atomid]
  {
  }
}
