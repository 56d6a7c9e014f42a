// Balanced release: what the analyser emits at the end of scopes, at returns, at raised errors and after calls releases
// every owned register exactly once on each path, and exactly when it does so for an error which meets a handler.
module Release {
  import HandlerStack

  datatype Option<+T> = None | Some(value: T)

  // ---- the analyser ----

  // A register out of scope has a negative scope
  datatype Info = Info(scope: int, autorelease: bool)

  // A reference may come with the result of a call, or with an error which is caught: 'Got'. And the one of a raised
  // error goes to its handler: 'Hand'.
  datatype Op = Ref(lvid: nat) | Unref(lvid: nat) | Got(lvid: nat) | Hand(lvid: nat) {
    predicate Gives() { Ref? || Got? }
  }

  predicate Released(i: Info, scope: int) { i.scope >= scope && i.autorelease }

  // The registers from a scope, in the reverse order
  function Releases(lvids: seq<Info>, scope: int, n: nat): seq<Op>
    requires n <= |lvids|
  {
    if n == 0 then []
    else (if Released(lvids[n - 1], scope) then [Unref(n - 1)] else []) + Releases(lvids, scope, n - 1)
  }

  function ReleaseAll(lvids: seq<Info>, scope: int): seq<Op> { Releases(lvids, scope, |lvids|) }

  function Forgotten(lvids: seq<Info>, scope: int): (r: seq<Info>)
    ensures |r| == |lvids|
    ensures forall i :: 0 <= i < |r| ==> r[i] == if lvids[i].scope >= scope then lvids[i].(scope := -1) else lvids[i]
  {
    seq(|lvids|, i requires 0 <= i < |lvids| =>
      if lvids[i].scope >= scope then lvids[i].(scope := -1) else lvids[i])
  }

  lemma {:induction false} ReleasesSame(a: seq<Info>, b: seq<Info>, scope: int, n: nat)
    requires n <= |a| && n <= |b| && forall i :: 0 <= i < n ==> a[i] == b[i]
    ensures Releases(a, scope, n) == Releases(b, scope, n)
    decreases n
  {
    if n > 0 {
      ReleasesSame(a, b, scope, n - 1);
    }
  }

  class Analyzer {
    var lvids: seq<Info>
    var scope: nat
    var out: seq<Op>
    var generating: bool

    constructor (registers: nat)
      ensures scope == 0 && out == [] && generating && lvids == seq(registers, _ => Info(-1, false))
    {
      lvids, scope, out, generating := seq(registers, _ => Info(-1, false)), 0, [], true;
    }

    method ReleaseScopedVariables(from: int, forget: bool)
      modifies this`lvids, this`out
      ensures out == if generating then old(out) + ReleaseAll(old(lvids), from) else old(out)
      ensures lvids == if forget then Forgotten(old(lvids), from) else old(lvids)
    {
      hide Releases;
      if !forget && !generating {
        return;
      }
      var i := |lvids|;
      ReleasesFirst(lvids, from, 0);
      if generating {
        while i != 0
          invariant 0 <= i <= |lvids| == |old(lvids)|
          invariant forall k :: 0 <= k < i ==> lvids[k] == old(lvids)[k]
          invariant forall k :: i <= k < |lvids| ==>
            lvids[k] == if forget then Forgotten(old(lvids), from)[k] else old(lvids)[k]
          invariant out + Releases(old(lvids), from, i) == old(out) + ReleaseAll(old(lvids), from)
          decreases i
        {
          ReleasesFirst(old(lvids), from, i);
          i := i - 1;
          var clcvr := lvids[i];
          if clcvr.scope >= from {
            if clcvr.autorelease {
              out := out + [Unref(i)];
            }
            if forget {
              lvids := lvids[i := clcvr.(scope := -1)];
            }
          }
        }
      } else {
        while i != 0
          invariant 0 <= i <= |lvids| == |old(lvids)|
          invariant forall k :: 0 <= k < i ==> lvids[k] == old(lvids)[k]
          invariant forall k :: i <= k < |lvids| ==> lvids[k] == Forgotten(old(lvids), from)[k]
          invariant out == old(out)
          decreases i
        {
          i := i - 1;
          if lvids[i].scope >= from {
            lvids := lvids[i := lvids[i].(scope := -1)];
          }
        }
      }
    }

    method VisitScope()
      modifies this`scope
      ensures scope == old(scope) + 1
    {
      scope := scope + 1;
    }

    // The scope is null at the end of the function
    method VisitEnd()
      modifies this`lvids, this`out, this`scope
      ensures out == if generating then old(out) + ReleaseAll(old(lvids), old(scope)) else old(out)
      ensures lvids == Forgotten(old(lvids), old(scope))
      ensures scope == if old(scope) > 0 then old(scope) - 1 else 0
    {
      ReleaseScopedVariables(scope, true);
      if scope > 0 {
        scope := scope - 1;
      }
    }

    method AcquireObject(lvid: nat)
      requires lvid < |lvids|
      modifies this`lvids, this`out
      ensures out == old(out) + [Ref(lvid)] && lvids == Acquired(old(lvids), lvid)
    {
      out := out + [Ref(lvid)];
      lvids := lvids[lvid := lvids[lvid].(autorelease := true)];
    }

    method VisitRet(retlvid: nat)
      requires retlvid < |lvids| && generating
      modifies this`lvids, this`out
      ensures out == old(out) + ReturnOps(old(lvids), retlvid) && lvids == Acquired(old(lvids), retlvid)
    {
      hide Releases;
      hide Forgotten;
      AcquireObject(retlvid);
      ReleaseScopedVariables(0, false);
    }

    // A direct 'raise': without handler, or with one of some scope. A handler of any error does not get the error.
    method VisitRaise(lvid: nat, handler: Option<int>, any: bool)
      requires lvid < |lvids| && generating
      modifies this`lvids, this`out
      ensures lvids == old(lvids)
      ensures out == old(out) + match handler
                                case None => ThrowOps(old(lvids), lvid)
                                case Some(s) => (if any then [] else [Ref(lvid)]) + ReleaseAll(old(lvids), s)
    {
      hide Releases;
      hide Forgotten;
      if handler.None? || !any {
        out := out + [Ref(lvid)];
      }
      ReleaseScopedVariables(if handler.Some? then handler.value else 0, false);
    }

    // What is released before the errors of a call are dispatched: with a handler of any error, what its block owns,
    // else what the block of the first handler registered owns, else everything
    method VisitJzraise(handlers: HandlerStack.OnScopeFailHandlers)
      requires generating
      modifies this`lvids, this`out
      ensures lvids == old(lvids) && |out| >= |old(out)| && out[..|old(out)|] == old(out)
      ensures handlers.any.target != 0 ==>
        forall r :: Drops(out[|old(out)|..], r) == if OwnedFrom(lvids, r, handlers.any.scope) then 1 else 0
      ensures handlers.any.target == 0 && handlers.typed != [] ==>
        forall r :: Drops(out[|old(out)|..], r) == if OwnedFrom(lvids, r, handlers.typed[0].handler.scope) then 1 else 0
      ensures handlers.any.target == 0 && handlers.typed == [] ==>
        forall r :: Drops(out[|old(out)|..], r) == if OwnedFrom(lvids, r, 0) then 1 else 0
      ensures forall f: Frame, hs :: f.lvids == lvids && InScope(hs, handlers) ==>
        match CallRaises(f, hs)
        case Leave(ops, _) => out == old(out) + ops
        case Chain(ops, _, _, _) => out == old(out) + ops
        case _ => false
    {
      hide Releases;
      hide Forgotten;
      hide Drops;
      var from := 0;
      if handlers.typed != [] || handlers.any.target != 0 {
        from := handlers.OutermostScope();
      }
      ReleaseScopedVariables(from, false);
      assert out[|old(out)|..] == ReleaseAll(lvids, from);
      forall r: nat
        ensures Drops(ReleaseAll(lvids, from), r) == if OwnedFrom(lvids, r, from) then 1 else 0
      {
        DropsOfReleases(lvids, from, |lvids|, r);
      }
    }
  }

  function Acquired(lvids: seq<Info>, lvid: nat): seq<Info>
    requires lvid < |lvids|
  {
    lvids[lvid := lvids[lvid].(autorelease := true)]
  }

  function ReturnOps(lvids: seq<Info>, lvid: nat): seq<Op>
    requires lvid < |lvids|
  {
    [Ref(lvid)] + ReleaseAll(Acquired(lvids, lvid), 0)
  }

  // The error is acquired for its handler, in some caller
  function ThrowOps(lvids: seq<Info>, lvid: nat): seq<Op> { [Ref(lvid)] + ReleaseAll(lvids, 0) }

  // ---- what is emitted for a body ----

  datatype Node =
    | Own(lvid: nat)                                  // a new register, which acquires an object
    | Borrow(lvid: nat)                               // a new register which owns nothing
    | Call(lvid: nat, instance: bool, raises: bool)   // a new register for the result of a call
    | Scope(n: Node)
    | Seq(a: Node, b: Node)
    | Branch(a: Node, b: Node)
    | While(n: Node)
    | Return(lvid: nat)
    | Throw(lvid: nat, k: nat)                        // a direct 'raise', for the k-th handler if there is any
    | Guard(any: bool, x: nat, h: Node, n: Node)      // the rest 'n' of a block, once it has the handler 'h'

  // A handler in scope, with the scope of its block. Nothing can be registered after a handler of any error.
  datatype Handler = Handler(scope: nat, any: bool)

  // The handlers are those of the analyser: the typed ones, then the one of any error
  ghost predicate InScope(hs: seq<Handler>, handlers: HandlerStack.OnScopeFailHandlers)
    reads handlers
  {
    && |hs| == |handlers.typed| + (if handlers.any.target != 0 then 1 else 0)
    && (forall i :: 0 <= i < |handlers.typed| ==> hs[i].scope == handlers.typed[i].handler.scope && !hs[i].any)
    && (handlers.any.target != 0 ==> hs[|hs| - 1].scope == handlers.any.scope && hs[|hs| - 1].any)
  }

  // From where an error out of a call releases
  function OutermostScope(hs: seq<Handler>): nat
    requires hs != []
  {
    if hs[|hs| - 1].any then hs[|hs| - 1].scope else hs[0].scope
  }

  // A block with a handler: the registers when it begins, and when it ends
  datatype Block = Block(depth: nat, scope: nat, outer: seq<Info>, end: seq<Info>)

  // The control flow of the emitted code
  datatype Code =
    | Plain(ops: seq<Op>)
    | Join(a: Code, b: Code)
    | Pick(a: Code, b: Code)
    | Loop(body: Code)
    | Leave(ops: seq<Op>, result: Option<nat>)        // out of the function
    | Jump(ops: seq<Op>, k: nat, from: nat, error: Option<nat>, at: seq<Info>)  // to a handler
    | Chain(ops: seq<Op>, handlers: nat, from: nat, at: seq<Info>)              // to one of the handlers
    | Catch(block: Block, handler: Code, body: Code)

  datatype Frame = Frame(lvids: seq<Info>, scope: nat)

  datatype Emitted = Emitted(frame: Frame, code: Code)

  function Declared(f: Frame, lvid: nat, owns: bool): Frame {
    if lvid < |f.lvids| then f.(lvids := f.lvids[lvid := Info(f.scope, owns)]) else f
  }

  function Open(f: Frame): Frame { f.(scope := f.scope + 1) }

  function Close(e: Emitted, scope: nat): Emitted {
    Emitted(Frame(Forgotten(e.frame.lvids, scope + 1), scope),
            Join(e.code, Plain(ReleaseAll(e.frame.lvids, scope + 1))))
  }

  // The variable of a handler belongs to the block, as long as the code of the handler is emitted
  function Named(f: Frame, any: bool, x: nat): Frame { if any then Open(f) else Declared(Open(f), x, true) }

  function Unnamed(f: Frame, any: bool, x: nat): Frame {
    if any || x >= |f.lvids| then f else f.(lvids := f.lvids[x := Info(-1, false)])
  }

  function HandlerCode(any: bool, x: nat, code: Code): Code {
    if any then code else Join(Plain([Got(x)]), Join(code, Plain([Unref(x)])))
  }

  function RaiseTo(f: Frame, lvid: nat, h: Handler): seq<Op> {
    (if h.any then [] else [Ref(lvid)]) + ReleaseAll(f.lvids, h.scope)
  }

  // The result of a call is registered before its errors are dispatched
  function CallRaises(f: Frame, hs: seq<Handler>): Code {
    if hs == [] then Leave(ReleaseAll(f.lvids, 0), None)
    else Chain(ReleaseAll(f.lvids, OutermostScope(hs)), |hs|, OutermostScope(hs), f.lvids)
  }

  function Emit(n: Node, f: Frame, hs: seq<Handler>): Emitted {
    match n
    case Own(lvid) => Emitted(Declared(f, lvid, true), Plain([Ref(lvid)]))
    case Borrow(lvid) => Emitted(Declared(f, lvid, false), Plain([]))
    case Call(lvid, instance, raises) =>
      var f1 := Declared(f, lvid, instance);
      var good := Plain(if instance then [Got(lvid)] else []);
      Emitted(f1, if raises then Pick(good, CallRaises(f1, hs)) else good)
    case Scope(n1) => Close(Emit(n1, Open(f), hs), f.scope)
    case Seq(a, b) =>
      var e1 := Emit(a, f, hs);
      var e2 := Emit(b, e1.frame, hs);
      Emitted(e2.frame, Join(e1.code, e2.code))
    case Branch(a, b) =>
      var e1 := Close(Emit(a, Open(f), hs), f.scope);
      var e2 := Close(Emit(b, Open(e1.frame), hs), f.scope);
      Emitted(e2.frame, Pick(e1.code, e2.code))
    case While(n1) =>
      var e := Close(Emit(n1, Open(f), hs), f.scope);
      Emitted(e.frame, Loop(e.code))
    case Return(lvid) =>
      if lvid < |f.lvids| then
        Emitted(f.(lvids := Acquired(f.lvids, lvid)), Leave(ReturnOps(f.lvids, lvid), Some(lvid)))
      else Emitted(f, Plain([]))
    case Throw(lvid, k) =>
      if hs == [] then Emitted(f, Leave(ThrowOps(f.lvids, lvid), Some(lvid)))
      else if k < |hs| then
        Emitted(f, Jump(RaiseTo(f, lvid, hs[k]), k, hs[k].scope, if hs[k].any then None else Some(lvid), f.lvids))
      else Emitted(f, Plain([]))
    case Guard(any, x, h, n1) =>
      var e1 := Close(Emit(h, Open(Named(f, any, x)), hs), f.scope + 1);
      var e2 := Emit(n1, Unnamed(e1.frame, any, x), hs + [Handler(f.scope + 1, any)]);
      Emitted(Close(e2, f.scope).frame,
              Catch(Block(|hs|, f.scope + 1, f.lvids, e2.frame.lvids), HandlerCode(any, x, e1.code), e2.code))
  }

  // ---- what happens on one path ----

  datatype Path = Here | Both(first: Path, rest: Path) | Left(p: Path) | Right(p: Path) | Nth(k: nat)

  // 'error' is the register which holds a reference for the handler
  datatype Exit =
    | Falls
    | Leaves(result: Option<nat>)
    | Jumps(k: nat, from: nat, error: Option<nat>, at: seq<Info>)

  // An error was caught, and its handler ran to its end or not
  datatype Caught = Caught(from: nat, at: seq<Info>, block: Block, done: bool)

  datatype Trace = Trace(ops: seq<Op>, exit: Exit, caught: seq<Caught>)

  function Then(t: Trace, u: Trace): Trace { Trace(t.ops + u.ops, u.exit, t.caught + u.caught) }

  function Simply(ops: seq<Op>): Trace { Trace(ops, Falls, []) }

  function BlockEnds(b: Block): Trace { Simply(ReleaseAll(b.end, b.scope)) }

  // The error of 't' runs the handler 'u', then the block ends
  function Handled(t: Trace, u: Trace, b: Block): Trace
    requires t.exit.Jumps?
  {
    var hand := Trace(if t.exit.error.Some? then [Hand(t.exit.error.value)] else [], Falls,
                      [Caught(t.exit.from, t.exit.at, b, u.exit.Falls?)]);
    Then(t, Then(hand, if u.exit.Falls? then Then(u, BlockEnds(b)) else u))
  }

  // The operations met along a path; none when that is no path of the code
  function Follow(c: Code, p: Path): Option<Trace>
    decreases p, c
  {
    match c
    case Plain(ops) => if p.Here? then Some(Simply(ops)) else None
    case Leave(ops, result) => if p.Here? then Some(Trace(ops, Leaves(result), [])) else None
    case Jump(ops, k, from, error, at) => if p.Here? then Some(Trace(ops, Jumps(k, from, error, at), [])) else None
    case Chain(ops, handlers, from, at) =>
      if p.Nth? && p.k < handlers then Some(Trace(ops, Jumps(p.k, from, None, at), [])) else None
    case Pick(a, b) => if p.Left? then Follow(a, p.p) else if p.Right? then Follow(b, p.p) else None
    case Join(a, b) =>
      if !p.Both? then None
      else (match Follow(a, p.first)
            case None => None
            case Some(t) =>
              if !t.exit.Falls? then Some(t)
              else (match Follow(b, p.rest)
                    case None => None
                    case Some(u) => Some(Then(t, u))))
    case Loop(body) =>
      if p.Here? then Some(Simply([]))
      else if !p.Both? then None
      else (match Follow(body, p.first)
            case None => None
            case Some(t) =>
              if !t.exit.Falls? then Some(t)
              else (match Follow(c, p.rest)
                    case None => None
                    case Some(u) => Some(Then(t, u))))
    case Catch(block, handler, body) =>
      if !p.Both? then None
      else match Follow(body, p.first)
           case None => None
           case Some(t) =>
             if t.exit.Falls? then Some(Then(t, BlockEnds(block)))
             else if !t.exit.Jumps? || t.exit.k != block.depth then Some(t)
             else match Follow(handler, p.rest)
                  case None => None
                  case Some(u) => Some(Handled(t, u, block))
  }

  // The references held by the registers; it fails when a register which holds none is released
  function Exec(held: seq<nat>, ops: seq<Op>): (r: Option<seq<nat>>)
    ensures r.Some? ==> |r.value| == |held|
    decreases |ops|
  {
    if ops == [] then Some(held)
    else
      var r := ops[0].lvid;
      if r >= |held| then None
      else if ops[0].Gives() then Exec(held[r := held[r] + 1], ops[1..])
      else if held[r] == 0 then None
      else Exec(held[r := held[r] - 1], ops[1..])
  }

  lemma ExecFirst(held: seq<nat>, ops: seq<Op>)
    requires ops != [] && ops[0].lvid < |held|
    ensures ops[0].Gives() ==> Exec(held, ops) == Exec(held[ops[0].lvid := held[ops[0].lvid] + 1], ops[1..])
    ensures !ops[0].Gives() && held[ops[0].lvid] == 0 ==> Exec(held, ops) == None
    ensures !ops[0].Gives() && held[ops[0].lvid] > 0 ==>
      Exec(held, ops) == Exec(held[ops[0].lvid := held[ops[0].lvid] - 1], ops[1..])
  {
  }

  lemma ExecNone(held: seq<nat>)
    ensures Exec(held, []) == Some(held)
  {
  }

  lemma ReleasesFirst(lvids: seq<Info>, scope: int, n: nat)
    requires n <= |lvids|
    ensures n == 0 ==> Releases(lvids, scope, n) == []
    ensures n > 0 && Released(lvids[n - 1], scope) ==>
      Releases(lvids, scope, n) == [Unref(n - 1)] + Releases(lvids, scope, n - 1)
    ensures n > 0 && !Released(lvids[n - 1], scope) ==>
      Releases(lvids, scope, n) == Releases(lvids, scope, n - 1)
  {
  }

  lemma {:induction false} ExecCat(held: seq<nat>, a: seq<Op>, b: seq<Op>)
    ensures Exec(held, a).Some? ==> Exec(held, a + b) == Exec(Exec(held, a).value, b)
    ensures Exec(held, a).None? ==> Exec(held, a + b).None?
    decreases |a|
  {
    if a == [] {
      assert a + b == b;
    } else {
      assert (a + b)[0] == a[0] && (a + b)[1..] == a[1..] + b;
      var r := a[0].lvid;
      if r < |held| && (a[0].Gives() || held[r] > 0) {
        ExecCat(if a[0].Gives() then held[r := held[r] + 1] else held[r := held[r] - 1], a[1..], b);
      }
    }
  }

  // ---- the invariant ----

  // A register holds one reference exactly when the analyser will release it
  ghost predicate Match(held: seq<nat>, lvids: seq<Info>) {
    |held| == |lvids| && forall r :: 0 <= r < |lvids| ==> held[r] == if Released(lvids[r], 0) then 1 else 0
  }

  ghost predicate Nested(f: Frame) { forall r :: 0 <= r < |f.lvids| ==> f.lvids[r].scope <= f.scope }

  predicate Fresh(f: Frame, lvid: nat) { lvid < |f.lvids| && f.lvids[lvid].scope < 0 }

  // Registers are declared once, a returned register is owned, and no call which may raise returns an object
  predicate Proper(n: Node, f: Frame, hs: seq<Handler>) {
    match n
    case Own(lvid) => Fresh(f, lvid)
    case Borrow(lvid) => Fresh(f, lvid)
    case Call(lvid, instance, raises) => Fresh(f, lvid) && !(instance && raises)
    case Scope(n1) => Proper(n1, Open(f), hs)
    case Seq(a, b) => Proper(a, f, hs) && Proper(b, Emit(a, f, hs).frame, hs)
    case Branch(a, b) => Proper(a, Open(f), hs) && Proper(b, Open(Close(Emit(a, Open(f), hs), f.scope).frame), hs)
    case While(n1) => Proper(n1, Open(f), hs)
    case Return(lvid) => lvid < |f.lvids| && Released(f.lvids[lvid], 0)
    case Throw(lvid, k) => lvid < |f.lvids| && (hs != [] ==> k < |hs|)
    case Guard(any, x, h, n1) =>
      && (hs != [] ==> !hs[|hs| - 1].any) && (!any ==> Fresh(f, x))
      && Proper(h, Open(Named(f, any, x)), hs)
      && Proper(n1, BodyFrame(any, x, h, f, hs), hs + [Handler(f.scope + 1, any)])
  }

  // When the code protected by a handler begins
  function BodyFrame(any: bool, x: nat, h: Node, f: Frame, hs: seq<Handler>): Frame {
    Unnamed(Close(Emit(h, Open(Named(f, any, x)), hs), f.scope + 1).frame, any, x)
  }

  // What was in scope is as it was; what was not, is not, or belongs to the current scope
  ghost predicate Extends(f: Frame, g: Frame) {
    && |g.lvids| == |f.lvids| && g.scope == f.scope
    && forall r :: 0 <= r < |f.lvids| ==>
      if f.lvids[r].scope >= 0 then g.lvids[r] == f.lvids[r]
      else g.lvids[r].scope < 0 || g.lvids[r].scope == f.scope
  }

  // Nothing has changed for who looks at the registers in scope
  ghost predicate SameView(f: Frame, g: Frame) {
    && |g.lvids| == |f.lvids| && g.scope == f.scope
    && forall r :: 0 <= r < |f.lvids| ==>
      if f.lvids[r].scope >= 0 then g.lvids[r] == f.lvids[r] else g.lvids[r].scope < 0
  }

  lemma CloseView(f: Frame, e: Emitted)
    requires Nested(f) && Extends(Open(f), e.frame)
    ensures SameView(f, Close(e, f.scope).frame)
  {
  }

  lemma ViewNested(f: Frame, g: Frame)
    requires Nested(f) && SameView(f, g)
    ensures Nested(g) && Extends(f, g)
  {
  }

  lemma {:induction false} EmitExtends(n: Node, f: Frame, hs: seq<Handler>)
    requires Proper(n, f, hs) && Nested(f)
    ensures Extends(f, Emit(n, f, hs).frame) && Nested(Emit(n, f, hs).frame)
    decreases n, 1
  {
    match n
    case Scope(n1) => ScopeView(n1, f, hs);
    case Seq(a, b) =>
      EmitExtends(a, f, hs);
      EmitExtends(b, Emit(a, f, hs).frame, hs);
    case Branch(a, b) =>
      ScopeView(a, f, hs);
      var g := Close(Emit(a, Open(f), hs), f.scope).frame;
      ScopeView(b, g, hs);
    case While(n1) => ScopeView(n1, f, hs);
    case Guard(any, x, h, n1) =>
      GuardView(any, x, h, n1, f, hs);
      ViewNested(f, Emit(n, f, hs).frame);
    case _ =>
  }

  lemma {:induction false} ScopeView(n: Node, f: Frame, hs: seq<Handler>)
    requires Proper(n, Open(f), hs) && Nested(f)
    ensures SameView(f, Close(Emit(n, Open(f), hs), f.scope).frame)
    ensures Nested(Close(Emit(n, Open(f), hs), f.scope).frame)
    ensures Extends(f, Close(Emit(n, Open(f), hs), f.scope).frame)
    decreases n, 2
  {
    hide Emit;
    hide Proper;
    hide Close;
    EmitExtends(n, Open(f), hs);
    CloseView(f, Emit(n, Open(f), hs));
    ViewNested(f, Close(Emit(n, Open(f), hs), f.scope).frame);
  }

  // The code of a handler changes nothing for the code that it protects
  lemma {:induction false} BodyView(any: bool, x: nat, h: Node, f: Frame, hs: seq<Handler>)
    requires (!any ==> Fresh(f, x)) && Proper(h, Open(Named(f, any, x)), hs) && Nested(f)
    ensures SameView(Open(f), BodyFrame(any, x, h, f, hs)) && Nested(BodyFrame(any, x, h, f, hs))
    decreases h, 3
  {
    hide Emit;
    hide Proper;
    hide Close;
    ScopeView(h, Named(f, any, x), hs);
    ViewNested(Open(f), BodyFrame(any, x, h, f, hs));
  }

  lemma {:induction false} GuardView(any: bool, x: nat, h: Node, n: Node, f: Frame, hs: seq<Handler>)
    requires Proper(Guard(any, x, h, n), f, hs) && Nested(f)
    ensures SameView(f, Emit(Guard(any, x, h, n), f, hs).frame)
    decreases Guard(any, x, h, n), 0
  {
    GuardParts(any, x, h, n, f, hs);
    hide Emit;
    hide Proper;
    BodyView(any, x, h, f, hs);
    var g := BodyFrame(any, x, h, f, hs);
    var e := Emit(n, g, hs + [Handler(f.scope + 1, any)]);
    EmitExtends(n, g, hs + [Handler(f.scope + 1, any)]);
    hide BodyFrame;
    CloseView(f, e);
  }

  lemma GuardParts(any: bool, x: nat, h: Node, n: Node, f: Frame, hs: seq<Handler>)
    requires Proper(Guard(any, x, h, n), f, hs)
    ensures (!any ==> Fresh(f, x)) && Proper(h, Open(Named(f, any, x)), hs)
    ensures var g := BodyFrame(any, x, h, f, hs);
      var hs' := hs + [Handler(f.scope + 1, any)];
      var e1 := Close(Emit(h, Open(Named(f, any, x)), hs), f.scope + 1);
      var e2 := Emit(n, g, hs');
      && Proper(n, g, hs')
      && Emit(Guard(any, x, h, n), f, hs)
         == Emitted(Close(e2, f.scope).frame,
                    Catch(Block(|hs|, f.scope + 1, f.lvids, e2.frame.lvids), HandlerCode(any, x, e1.code), e2.code))
  {
    hide Close;
  }

  lemma MatchView(held: seq<nat>, f: Frame, g: Frame)
    requires SameView(f, g)
    ensures Match(held, f.lvids) <==> Match(held, g.lvids)
  {
    assert forall r :: 0 <= r < |f.lvids| ==> (Released(f.lvids[r], 0) <==> Released(g.lvids[r], 0));
  }

  // ---- runs ----

  // What the registers hold once some of them were released
  function After(held: seq<nat>, lvids: seq<Info>, scope: int, n: nat): (r: seq<nat>)
    requires |held| == |lvids|
    ensures |r| == |held|
    ensures forall i :: 0 <= i < |r| ==>
      r[i] == if i < n && Released(lvids[i], scope) && held[i] > 0 then held[i] - 1 else held[i]
  {
    seq(|held|, i requires 0 <= i < |held| =>
      if i < n && Released(lvids[i], scope) && held[i] > 0 then held[i] - 1 else held[i])
  }

  lemma {:induction false} ReleasesRun(held: seq<nat>, lvids: seq<Info>, scope: int, n: nat)
    requires |held| == |lvids| && n <= |lvids|
    ensures CanRelease(held, lvids, scope, n) ==>
      Exec(held, Releases(lvids, scope, n)) == Some(After(held, lvids, scope, n))
    ensures !CanRelease(held, lvids, scope, n) ==> Exec(held, Releases(lvids, scope, n)) == None
    decreases n
  {
    hide Exec;
    hide Releases;
    ReleasesFirst(lvids, scope, n);
    if n == 0 {
      assert After(held, lvids, scope, 0) == held;
      ExecNone(held);
    } else if Released(lvids[n - 1], scope) {
      var ops := Releases(lvids, scope, n);
      assert ops[0] == Unref(n - 1) && ops[1..] == Releases(lvids, scope, n - 1);
      ExecFirst(held, ops);
      if held[n - 1] > 0 {
        var held1 := held[n - 1 := held[n - 1] - 1];
        ReleasesRun(held1, lvids, scope, n - 1);
        assert After(held1, lvids, scope, n - 1) == After(held, lvids, scope, n);
      }
    } else {
      ReleasesRun(held, lvids, scope, n - 1);
      assert After(held, lvids, scope, n - 1) == After(held, lvids, scope, n);
    }
  }

  ghost predicate CanRelease(held: seq<nat>, lvids: seq<Info>, scope: int, n: nat)
    requires |held| == |lvids| && n <= |lvids|
  {
    forall r :: 0 <= r < n && Released(lvids[r], scope) ==> held[r] > 0
  }

  // Only the returned register, if any, still holds a reference, for the caller
  ghost predicate Emptied(held: seq<nat>, result: Option<nat>) {
    forall r :: 0 <= r < |held| ==> held[r] == if result == Some(r) then 1 else 0
  }

  function Bit(b: bool): nat { if b then 1 else 0 }

  function Owned(lvids: seq<Info>, r: nat): nat
    requires r < |lvids|
  {
    Bit(Released(lvids[r], 0))
  }

  // What is left once everything was released from a scope on
  function Kept(lvids: seq<Info>, from: nat, r: nat): nat
    requires r < |lvids|
  {
    Bit(Released(lvids[r], 0) && lvids[r].scope < from)
  }

  // An error has been raised for a handler
  ghost predicate Dropped(held: seq<nat>, x: Exit)
    requires x.Jumps?
  {
    |held| == |x.at| && forall r :: 0 <= r < |held| ==> held[r] == Kept(x.at, x.from, r) + Bit(x.error == Some(r))
  }

  ghost predicate Fine(held: seq<nat>, x: Exit, lvids: seq<Info>) {
    match x
    case Falls => Match(held, lvids)
    case Leaves(result) => |held| == |lvids| && Emptied(held, result)
    case Jumps(_, _, error, _) => |held| == |lvids| && Dropped(held, x) && (error.Some? ==> error.value < |held|)
  }

  ghost predicate Balanced(held: seq<nat>, t: Trace, lvids: seq<Info>) {
    Exec(held, t.ops).Some? && Fine(Exec(held, t.ops).value, t.exit, lvids)
  }

  lemma CloseRuns(held: seq<nat>, f: Frame, scope: nat)
    requires Match(held, f.lvids)
    ensures var r := Exec(held, ReleaseAll(f.lvids, scope));
      r.Some? && Match(r.value, Forgotten(f.lvids, scope))
  {
    ReleasesRun(held, f.lvids, scope, |f.lvids|);
  }

  lemma OneRuns(held: seq<nat>, op: Op)
    requires op.lvid < |held|
    ensures op.Gives() ==> Exec(held, [op]) == Some(held[op.lvid := held[op.lvid] + 1])
    ensures !op.Gives() && held[op.lvid] > 0 ==> Exec(held, [op]) == Some(held[op.lvid := held[op.lvid] - 1])
  {
    hide Exec;
    assert [op][1..] == [];
    ExecFirst(held, [op]);
    ExecNone(held[op.lvid := held[op.lvid] + 1]);
    if held[op.lvid] > 0 {
      ExecNone(held[op.lvid := held[op.lvid] - 1]);
    }
  }

  // A return takes one reference for the caller, then releases everything: it leaves what the register held before,
  // which is one reference exactly when the register was owned
  lemma ReturnRuns(held: seq<nat>, lvids: seq<Info>, lvid: nat)
    requires Match(held, lvids) && lvid < |lvids| && lvids[lvid].scope >= 0
    ensures Exec(held, ReturnOps(lvids, lvid)).Some?
    ensures var after := Exec(held, ReturnOps(lvids, lvid)).value;
      forall r :: 0 <= r < |after| ==> after[r] == if r == lvid then held[lvid] else 0
    ensures Emptied(Exec(held, ReturnOps(lvids, lvid)).value, Some(lvid)) <==> lvids[lvid].autorelease
  {
    var now := Acquired(lvids, lvid);
    var held1 := held[lvid := held[lvid] + 1];
    OneRuns(held, Ref(lvid));
    ExecCat(held, [Ref(lvid)], ReleaseAll(now, 0));
    ReleasesRun(held1, now, 0, |now|);
  }

  // After a return which was not taken, the register is released by the ends of the scopes: this is right, and
  // succeeds, exactly when it was owned before the return
  lemma ReturnPassed(held: seq<nat>, lvids: seq<Info>, lvid: nat)
    requires Match(held, lvids) && lvid < |lvids| && lvids[lvid].scope >= 0
    ensures Match(held, Acquired(lvids, lvid)) <==> lvids[lvid].autorelease
    ensures Exec(held, ReleaseAll(Acquired(lvids, lvid), 0)).Some? <==> lvids[lvid].autorelease
  {
    var now := Acquired(lvids, lvid);
    ReleasesRun(held, now, 0, |now|);
    assert Released(now[lvid], 0);
  }

  // An error raised without handler leaves with exactly one reference, whether its register was owned or not
  lemma ThrowRuns(held: seq<nat>, lvids: seq<Info>, lvid: nat)
    requires Match(held, lvids) && lvid < |lvids|
    ensures Exec(held, ThrowOps(lvids, lvid)).Some?
    ensures Emptied(Exec(held, ThrowOps(lvids, lvid)).value, Some(lvid))
  {
    OneRuns(held, Ref(lvid));
    ExecCat(held, [Ref(lvid)], ReleaseAll(lvids, 0));
    ReleasesRun(held[lvid := held[lvid] + 1], lvids, 0, |lvids|);
  }

  // An error raised for a handler keeps what is out of the scope of this handler, and one reference for the handler
  // unless it is for any error
  lemma RaiseRuns(held: seq<nat>, f: Frame, lvid: nat, h: Handler, k: nat)
    requires Match(held, f.lvids) && lvid < |f.lvids|
    ensures Exec(held, RaiseTo(f, lvid, h)).Some?
    ensures Dropped(Exec(held, RaiseTo(f, lvid, h)).value,
                    Jumps(k, h.scope, if h.any then None else Some(lvid), f.lvids))
  {
    hide Exec;
    hide Releases;
    var held1 := if h.any then held else held[lvid := held[lvid] + 1];
    if h.any {
      assert RaiseTo(f, lvid, h) == ReleaseAll(f.lvids, h.scope);
    } else {
      OneRuns(held, Ref(lvid));
      ExecCat(held, [Ref(lvid)], ReleaseAll(f.lvids, h.scope));
    }
    ReleasesRun(held1, f.lvids, h.scope, |f.lvids|);
  }

  // An error comes out of a call: everything is released from some scope on but nothing was acquired for its result, so
  // that this succeeds exactly when the result is no object
  lemma RaisingRuns(held: seq<nat>, f: Frame, lvid: nat, instance: bool, from: nat, k: nat)
    requires Match(held, f.lvids) && Fresh(f, lvid) && from <= f.scope
    ensures Exec(held, ReleaseAll(Declared(f, lvid, instance).lvids, from)).Some? <==> !instance
    ensures !instance ==> var lvids := Declared(f, lvid, instance).lvids;
      && Dropped(Exec(held, ReleaseAll(lvids, from)).value, Jumps(k, from, None, lvids))
      && (from == 0 ==> Emptied(Exec(held, ReleaseAll(lvids, from)).value, None))
  {
    hide Exec;
    hide Releases;
    var lvids := Declared(f, lvid, instance).lvids;
    ReleasesRun(held, lvids, from, |lvids|);
    if instance {
      assert Released(lvids[lvid], from) && held[lvid] == 0;
    }
  }

  // ---- what an error releases ----

  lemma {:induction false} DropsOfReleases(lvids: seq<Info>, scope: int, n: nat, r: nat)
    requires n <= |lvids|
    ensures Drops(Releases(lvids, scope, n), r) == if r < n && Released(lvids[r], scope) then 1 else 0
    ensures Takes(Releases(lvids, scope, n), r) == 0
    decreases n
  {
    if n > 0 {
      DropsOfReleases(lvids, scope, n - 1, r);
      var rest := Releases(lvids, scope, n - 1);
      if Released(lvids[n - 1], scope) {
        assert ([Unref(n - 1)] + rest)[1..] == rest;
      } else {
        assert [] + rest == rest;
      }
    }
  }

  // The last declared register is released first
  lemma {:induction false} ReleasesDescend(lvids: seq<Info>, scope: int, n: nat)
    requires n <= |lvids|
    ensures var ops := Releases(lvids, scope, n);
      && (forall i :: 0 <= i < |ops| ==> ops[i].Unref? && ops[i].lvid < n)
      && forall i, j :: 0 <= i < j < |ops| ==> ops[i].lvid > ops[j].lvid
    decreases n
  {
    if n > 0 {
      ReleasesDescend(lvids, scope, n - 1);
      var rest := Releases(lvids, scope, n - 1);
      hide Releases;
      ReleasesFirst(lvids, scope, n);
      if Released(lvids[n - 1], scope) {
        assert ([Unref(n - 1)] + rest)[1..] == rest;
      }
    }
  }

  // Blocks are nested, and nothing can be registered after a handler of any error
  ghost predicate Stacked(hs: seq<Handler>) {
    forall i, j :: 0 <= i < j < |hs| ==> hs[i].scope <= hs[j].scope && !hs[i].any
  }

  // The register is owned, and declared in that scope or further inside
  predicate OwnedFrom(lvids: seq<Info>, r: nat, scope: int) {
    r < |lvids| && lvids[r].autorelease && lvids[r].scope >= scope
  }

  // An error out of a call, on its way to the k-th handler, of which the call knows nothing: with typed handlers only,
  // what the block of any of them owns is released, once, and nothing that is owned outside of the block of the first
  // one. With a handler of any error, it is what the block of this handler owns.
  lemma CallErrorReleases(f: Frame, hs: seq<Handler>, lvid: nat, instance: bool, k: nat)
    requires Stacked(hs) && k < |hs|
    ensures var lvids := Declared(f, lvid, instance).lvids;
      var t := Follow(Emit(Call(lvid, instance, true), f, hs).code, Right(Nth(k)));
      && t.Some? && t.value.exit.Jumps? && t.value.exit.k == k
      && (forall r :: Takes(t.value.ops, r) == 0)
      && ((forall i :: 0 <= i < |hs| ==> !hs[i].any) ==>
            && (forall r, j :: 0 <= j < |hs| && OwnedFrom(lvids, r, hs[j].scope) ==> Drops(t.value.ops, r) == 1)
            && (forall r :: !OwnedFrom(lvids, r, hs[0].scope) ==> Drops(t.value.ops, r) == 0))
      && (forall i :: 0 <= i < |hs| && hs[i].any ==>
            forall r :: Drops(t.value.ops, r) == if OwnedFrom(lvids, r, hs[i].scope) then 1 else 0)
  {
    hide Releases;
    var lvids := Declared(f, lvid, instance).lvids;
    var from := if hs[|hs| - 1].any then hs[|hs| - 1].scope else hs[0].scope;
    forall r: nat
      ensures Drops(ReleaseAll(lvids, from), r) == if OwnedFrom(lvids, r, from) then 1 else 0
      ensures Takes(ReleaseAll(lvids, from), r) == 0
    {
      DropsOfReleases(lvids, from, |lvids|, r);
    }
  }

  // Without handler, everything is released and the function is left
  lemma CallErrorLeaves(f: Frame, lvid: nat, instance: bool)
    ensures var lvids := Declared(f, lvid, instance).lvids;
      var t := Follow(Emit(Call(lvid, instance, true), f, []).code, Right(Here));
      && t.Some? && t.value.exit == Leaves(None)
      && forall r ::
           Takes(t.value.ops, r) == 0 && Drops(t.value.ops, r) == if OwnedFrom(lvids, r, 0) then 1 else 0
  {
    hide Releases;
    var lvids := Declared(f, lvid, instance).lvids;
    forall r: nat
      ensures Drops(ReleaseAll(lvids, 0), r) == if OwnedFrom(lvids, r, 0) then 1 else 0
      ensures Takes(ReleaseAll(lvids, 0), r) == 0
    {
      DropsOfReleases(lvids, 0, |lvids|, r);
    }
  }

  // A direct 'raise' releases what the block of its own handler owns, and takes a reference for a typed handler
  lemma RaiseReleases(f: Frame, hs: seq<Handler>, lvid: nat, k: nat)
    requires k < |hs|
    ensures var t := Follow(Emit(Throw(lvid, k), f, hs).code, Here);
      && t.Some? && t.value.exit.Jumps? && t.value.exit.k == k
      && forall r ::
           && Takes(t.value.ops, r) == (if r == lvid && !hs[k].any then 1 else 0)
           && Drops(t.value.ops, r) == if OwnedFrom(f.lvids, r, hs[k].scope) then 1 else 0
  {
    hide Releases;
    var ops := ReleaseAll(f.lvids, hs[k].scope);
    assert ([Ref(lvid)] + ops)[1..] == ops && [] + ops == ops;
    forall r: nat
      ensures Drops(ops, r) == if OwnedFrom(f.lvids, r, hs[k].scope) then 1 else 0
      ensures Takes(ops, r) == 0
    {
      DropsOfReleases(f.lvids, hs[k].scope, |f.lvids|, r);
    }
  }

  // ---- the handlers in scope ----

  ghost predicate Within(hs: seq<Handler>, f: Frame) { forall k :: 0 <= k < |hs| ==> hs[k].scope <= f.scope }

  // Where an error was raised, the registers in scope at 'f' were as they are there
  ghost predicate RaisedIn(f: Frame, hs: seq<Handler>, x: Exit) {
    x.Jumps? ==>
      && x.k < |hs| && |x.at| == |f.lvids|
      && forall r :: 0 <= r < |f.lvids| ==>
           if f.lvids[r].scope >= 0 then x.at[r] == f.lvids[r] else x.at[r].scope < 0 || x.at[r].scope >= f.scope
  }

  lemma RaisedBefore(f: Frame, g: Frame, hs: seq<Handler>, x: Exit)
    requires Extends(f, g) && RaisedIn(g, hs, x)
    ensures RaisedIn(f, hs, x)
  {
  }

  lemma RaisedOutside(f: Frame, hs: seq<Handler>, x: Exit)
    requires RaisedIn(Open(f), hs, x)
    ensures RaisedIn(f, hs, x)
  {
  }

  // ---- caught errors ----

  // What is held too much when the handler begins is what the end of the block releases, if the handler gets there
  ghost predicate Harmless(c: Caught) {
    && |c.at| == |c.block.outer| == |c.block.end|
    && forall r :: 0 <= r < |c.at| ==>
         Kept(c.at, c.from, r)
         == Owned(c.block.outer, r) + if c.done then Bit(Released(c.block.end[r], c.block.scope)) else 0
  }

  ghost predicate Clean(caught: seq<Caught>) { forall i :: 0 <= i < |caught| ==> Harmless(caught[i]) }

  // In words: nothing was owned from the scope where the release began up to the block, and the block owns nothing at
  // its end, if the handler gets there. When the release began further inside, the block owns at its end what was owned
  // between it and this scope.
  ghost predicate ReleasedOnce(c: Caught) {
    |c.at| == |c.block.outer| == |c.block.end| &&
    if c.from <= c.block.scope then
      && (forall r :: 0 <= r < |c.block.outer| ==> !Released(c.block.outer[r], c.from))
      && (c.done ==> forall r :: 0 <= r < |c.block.end| ==> !Released(c.block.end[r], c.block.scope))
    else
      forall r :: 0 <= r < |c.at| ==>
        (Released(c.at[r], c.block.scope) && c.at[r].scope < c.from
         <==> c.done && Released(c.block.end[r], c.block.scope))
  }

  lemma HarmlessMeans(c: Caught, f: Frame, hs: seq<Handler>, x: Exit)
    requires c.block.outer == f.lvids && c.block.scope == f.scope + 1 && |c.block.end| == |f.lvids|
    requires x.Jumps? && c.from == x.from && c.at == x.at && Nested(f) && RaisedIn(Open(f), hs, x)
    ensures Harmless(c) <==> ReleasedOnce(c)
  {
    if c.from <= c.block.scope {
      HarmlessBefore(c, f, hs, x);
    } else {
      HarmlessInside(c, f, hs, x);
    }
  }

  lemma HarmlessInside(c: Caught, f: Frame, hs: seq<Handler>, x: Exit)
    requires c.block.outer == f.lvids && c.block.scope == f.scope + 1 && |c.block.end| == |f.lvids|
    requires x.Jumps? && c.from == x.from && c.at == x.at && Nested(f) && RaisedIn(Open(f), hs, x)
    requires c.from > c.block.scope
    ensures Harmless(c) <==> ReleasedOnce(c)
  {
    forall r | 0 <= r < |c.at|
      ensures Kept(c.at, c.from, r)
           == Owned(c.block.outer, r) + Bit(Released(c.at[r], c.block.scope) && c.at[r].scope < c.from)
    {
    }
    if Harmless(c) {
      forall r | 0 <= r < |c.at|
        ensures Released(c.at[r], c.block.scope) && c.at[r].scope < c.from
           <==> c.done && Released(c.block.end[r], c.block.scope)
      {
        assert Kept(c.at, c.from, r)
            == Owned(c.block.outer, r) + if c.done then Bit(Released(c.block.end[r], c.block.scope)) else 0;
      }
    }
  }

  lemma HarmlessBefore(c: Caught, f: Frame, hs: seq<Handler>, x: Exit)
    requires c.block.outer == f.lvids && c.block.scope == f.scope + 1 && |c.block.end| == |f.lvids|
    requires x.Jumps? && c.from == x.from && c.at == x.at && c.from <= c.block.scope && Nested(f)
    requires RaisedIn(Open(f), hs, x)
    ensures Harmless(c) <==> ReleasedOnce(c)
  {
    forall r | 0 <= r < |f.lvids|
      ensures Kept(c.at, c.from, r) + Bit(Released(f.lvids[r], c.from)) == Owned(f.lvids, r)
    {
    }
    if forall r :: 0 <= r < |f.lvids| ==> !Released(f.lvids[r], c.from) {
      if c.done && !(forall r :: 0 <= r < |f.lvids| ==> !Released(c.block.end[r], c.block.scope)) {
        var r :| 0 <= r < |f.lvids| && Released(c.block.end[r], c.block.scope);
        assert Bit(Released(c.block.end[r], c.block.scope)) == 1;
      }
    } else {
      var r :| 0 <= r < |f.lvids| && Released(f.lvids[r], c.from);
      assert Kept(c.at, c.from, r) + 1 == Owned(f.lvids, r);
    }
  }

  // The same operations with more in the registers
  lemma {:induction false} ShiftRuns(a: seq<nat>, b: seq<nat>, ops: seq<Op>)
    requires |a| == |b| && Exec(a, ops).Some?
    ensures (forall r :: 0 <= r < |a| ==> a[r] <= b[r]) ==> Exec(b, ops).Some?
    ensures Exec(b, ops).Some? ==>
      forall r :: 0 <= r < |a| ==> Exec(b, ops).value[r] + a[r] == Exec(a, ops).value[r] + b[r]
    decreases |ops|
  {
    if ops != [] {
      var r := ops[0].lvid;
      if ops[0].Gives() {
        ShiftRuns(a[r := a[r] + 1], b[r := b[r] + 1], ops[1..]);
      } else if b[r] > 0 {
        ShiftRuns(a[r := a[r] - 1], b[r := b[r] - 1], ops[1..]);
      }
    }
  }

  // The handler has run, from what the registers hold when it begins
  ghost predicate TailFine(held: seq<nat>, u: Trace, b: Block, after: seq<Info>) {
    Balanced(held, if u.exit.Falls? then Then(u, BlockEnds(b)) else u, after)
  }

  // Only the handed reference stands before the handler
  lemma HandedOver(held: seq<nat>, t: Trace, u: Trace, b: Block, after: seq<Info>, mid: seq<Info>)
    returns (now: seq<nat>)
    requires t.exit.Jumps? && Balanced(held, t, mid)
    ensures |now| == |t.exit.at| == |mid| && forall r :: 0 <= r < |now| ==> now[r] == Kept(t.exit.at, t.exit.from, r)
    ensures Balanced(held, Handled(t, u, b), after) <==> TailFine(now, u, b, after)
  {
    hide Releases;
    var mid := Exec(held, t.ops).value;
    var hand := if t.exit.error.Some? then [Hand(t.exit.error.value)] else [];
    var tail := if u.exit.Falls? then Then(u, BlockEnds(b)) else u;
    hide Exec;
    now := if t.exit.error.Some? then mid[t.exit.error.value := mid[t.exit.error.value] - 1] else mid;
    if t.exit.error.Some? {
      OneRuns(mid, hand[0]);
    } else {
      ExecNone(mid);
    }
    ExecCat(mid, hand, tail.ops);
    ExecCat(held, t.ops, hand + tail.ops);
    assert Handled(t, u, b).ops == t.ops + (hand + tail.ops);
  }

  // What a handler which ends leaves to the end of its block
  lemma BlockFine(held: seq<nat>, b: Block, outer: seq<Info>, after: seq<Info>)
    requires |held| == |b.end| == |outer| == |after| && b.scope > 0
    requires forall r :: 0 <= r < |outer| ==> Owned(after, r) == Owned(outer, r)
    ensures Balanced(held, BlockEnds(b), after)
       <==> forall r :: 0 <= r < |held| ==> held[r] == Owned(outer, r) + Bit(Released(b.end[r], b.scope))
  {
    hide Exec;
    hide Releases;
    ReleasesRun(held, b.end, b.scope, |b.end|);
    if CanRelease(held, b.end, b.scope, |b.end|) {
      var now := After(held, b.end, b.scope, |b.end|);
      assert Match(now, after) <==> forall r :: 0 <= r < |now| ==> now[r] == Owned(after, r);
    }
  }

  // A handler whose code is balanced when nothing is held too much, run with what is held: the path is balanced exactly
  // when this is what the end of the block takes back
  lemma TailExact(ideal: seq<nat>, held: seq<nat>, u: Trace, b: Block, after: seq<Info>)
    requires |ideal| == |held| == |b.outer| == |b.end| == |after| && b.scope > 0
    requires forall r :: 0 <= r < |b.outer| ==> ideal[r] == Owned(b.outer, r) == Owned(after, r)
    requires Balanced(ideal, u, b.outer)
    ensures TailFine(held, u, b, after) <==>
      forall r :: 0 <= r < |held| ==>
        held[r] == ideal[r] + if u.exit.Falls? then Bit(Released(b.end[r], b.scope)) else 0
  {
    hide Releases;
    ShiftRuns(ideal, held, u.ops);
    hide Exec;
    var e := Exec(ideal, u.ops).value;
    if u.exit.Falls? {
      ExecCat(held, u.ops, BlockEnds(b).ops);
      if Exec(held, u.ops).Some? {
        var d := Exec(held, u.ops).value;
        BlockFine(d, b, b.outer, after);
        assert forall r :: 0 <= r < |e| ==> e[r] == Owned(b.outer, r);
      }
    } else if Exec(held, u.ops).Some? {
      ExitExact(e, Exec(held, u.ops).value, u.exit, b.outer, after);
    }
  }

  // A function is left, or another handler entered, in one state only
  lemma ExitExact(e: seq<nat>, d: seq<nat>, x: Exit, lvids: seq<Info>, after: seq<Info>)
    requires !x.Falls? && Fine(e, x, lvids) && |d| == |e| && |after| == |lvids|
    ensures Fine(d, x, after) <==> forall r :: 0 <= r < |d| ==> d[r] == e[r]
  {
  }

  // ---- paths ----

  lemma SimpleRuns(n: Node, f: Frame, hs: seq<Handler>, held: seq<nat>, p: Path)
    requires n.Own? || n.Borrow? || n.Call? || n.Return? || n.Throw?
    requires Proper(n, f, hs) && Nested(f) && Within(hs, f) && Match(held, f.lvids)
    requires Follow(Emit(n, f, hs).code, p).Some?
    ensures var t := Follow(Emit(n, f, hs).code, p).value;
      Balanced(held, t, Emit(n, f, hs).frame.lvids) && RaisedIn(f, hs, t.exit)
  {
    hide Exec;
    hide Releases;
    ExecNone(held);
    match n
    case Own(lvid) => OneRuns(held, Ref(lvid));
    case Borrow(lvid) =>
    case Call(lvid, instance, raises) =>
      OneRuns(held, Got(lvid));
      if hs == [] {
        RaisingRuns(held, f, lvid, instance, 0, 0);
      } else if p.Right? && p.p.Nth? {
        RaisingRuns(held, f, lvid, instance, OutermostScope(hs), p.p.k);
      }
    case Return(lvid) => ReturnRuns(held, f.lvids, lvid);
    case Throw(lvid, k) =>
      if hs == [] {
        ThrowRuns(held, f.lvids, lvid);
      } else {
        RaiseRuns(held, f, lvid, hs[k], k);
      }
  }

  lemma ThenRuns(held: seq<nat>, t: Trace, u: Trace, mid: seq<Info>, lvids: seq<Info>)
    requires Balanced(held, t, mid) && t.exit.Falls? && Balanced(Exec(held, t.ops).value, u, lvids)
    ensures Balanced(held, Then(t, u), lvids)
  {
    ExecCat(held, t.ops, u.ops);
  }

  lemma CleanParts(a: seq<Caught>, b: seq<Caught>)
    ensures Clean(a + b) <==> Clean(a) && Clean(b)
  {
    if Clean(a + b) {
      forall i | 0 <= i < |a|
        ensures Harmless(a[i])
      {
        assert (a + b)[i] == a[i];
      }
      forall i | 0 <= i < |b|
        ensures Harmless(b[i])
      {
        assert (a + b)[|a| + i] == b[i];
      }
    }
  }

  // On every path through a body on which the caught errors are harmless: no register is released without being owned,
  // and the invariant holds at the end, unless the path leaves the function, with nothing but the returned value, or
  // reaches a handler, with what is out of its scope
  lemma {:induction false} PathsBalanced(n: Node, f: Frame, hs: seq<Handler>, held: seq<nat>, p: Path)
    requires Proper(n, f, hs) && Nested(f) && Within(hs, f) && Match(held, f.lvids)
    requires Follow(Emit(n, f, hs).code, p).Some? && Clean(Follow(Emit(n, f, hs).code, p).value.caught)
    ensures var t := Follow(Emit(n, f, hs).code, p).value;
      Balanced(held, t, Emit(n, f, hs).frame.lvids) && RaisedIn(f, hs, t.exit)
    decreases p, n, 0
  {
    match n
    case Scope(n1) => ScopeBalanced(n1, f, hs, held, p);
    case Seq(a, b) => SeqBalanced(a, b, f, hs, held, p);
    case Branch(a, b) => BranchBalanced(a, b, f, hs, held, p);
    case While(n1) => LoopBalanced(n1, f, hs, held, p);
    case Guard(any, x, h, n1) => GuardBalanced(any, x, h, n1, f, hs, held, p);
    case _ => SimpleRuns(n, f, hs, held, p);
  }

  lemma {:induction false} ScopeBalanced(n: Node, f: Frame, hs: seq<Handler>, held: seq<nat>, p: Path)
    requires Proper(n, Open(f), hs) && Nested(f) && Within(hs, f) && Match(held, f.lvids)
    requires Follow(Close(Emit(n, Open(f), hs), f.scope).code, p).Some?
    requires Clean(Follow(Close(Emit(n, Open(f), hs), f.scope).code, p).value.caught)
    ensures var t := Follow(Close(Emit(n, Open(f), hs), f.scope).code, p).value;
      Balanced(held, t, Close(Emit(n, Open(f), hs), f.scope).frame.lvids) && RaisedIn(f, hs, t.exit)
    decreases p, n, 1
  {
    hide Emit;
    hide Proper;
    hide Balanced;
    hide Exec;
    hide Releases;
    hide Clean;
    hide RaisedIn;
    var e := Emit(n, Open(f), hs);
    JoinFollows(e.code, Plain(ReleaseAll(e.frame.lvids, f.scope + 1)), p);
    PathsBalanced(n, Open(f), hs, held, p.first);
    var t := Follow(e.code, p.first).value;
    RaisedOutside(f, hs, t.exit);
    if !t.exit.Falls? {
      BalancedLeft(held, t, e.frame.lvids, Close(e, f.scope).frame.lvids);
    } else {
      BalancedMeans(held, t, e.frame.lvids);
      var held1 := Exec(held, t.ops).value;
      CloseRuns(held1, e.frame, f.scope + 1);
      var u := Simply(ReleaseAll(e.frame.lvids, f.scope + 1));
      BalancedIs(held1, u, Close(e, f.scope).frame.lvids);
      ThenRuns(held, t, u, e.frame.lvids, Close(e, f.scope).frame.lvids);
      FallsAreNotRaised(f, hs, Then(t, u).exit);
    }
  }

  lemma FallsAreNotRaised(f: Frame, hs: seq<Handler>, x: Exit)
    requires x.Falls?
    ensures RaisedIn(f, hs, x)
  {
  }

  lemma JoinFollows(a: Code, b: Code, p: Path)
    requires Follow(Join(a, b), p).Some?
    ensures p.Both? && Follow(a, p.first).Some?
    ensures var t := Follow(a, p.first).value;
      if !t.exit.Falls? then Follow(Join(a, b), p) == Some(t)
      else Follow(b, p.rest).Some? && Follow(Join(a, b), p) == Some(Then(t, Follow(b, p.rest).value))
    ensures b.Plain? && Follow(a, p.first).value.exit.Falls? ==> Follow(b, p.rest) == Some(Simply(b.ops))
    ensures Clean(Follow(Join(a, b), p).value.caught) ==> Clean(Follow(a, p.first).value.caught)
    ensures Follow(a, p.first).value.exit.Falls? && Clean(Follow(Join(a, b), p).value.caught) ==>
      Clean(Follow(b, p.rest).value.caught)
  {
    var t := Follow(a, p.first).value;
    if t.exit.Falls? {
      CleanParts(t.caught, Follow(b, p.rest).value.caught);
    }
  }

  lemma LoopFollows(c: Code, p: Path)
    requires Follow(Loop(c), p).Some?
    ensures p.Here? ==> Follow(Loop(c), p) == Some(Simply([]))
    ensures !p.Here? ==> p.Both? && Follow(c, p.first).Some?
    ensures !p.Here? ==>
      var t := Follow(c, p.first).value;
      && (Clean(Follow(Loop(c), p).value.caught) ==> Clean(t.caught))
      && if !t.exit.Falls? then Follow(Loop(c), p) == Some(t)
         else
           && Follow(Loop(c), p.rest).Some? && Follow(Loop(c), p) == Some(Then(t, Follow(Loop(c), p.rest).value))
           && (Clean(Follow(Loop(c), p).value.caught) ==> Clean(Follow(Loop(c), p.rest).value.caught))
  {
    if !p.Here? {
      var t := Follow(c, p.first).value;
      if t.exit.Falls? {
        CleanParts(t.caught, Follow(Loop(c), p.rest).value.caught);
      }
    }
  }

  lemma PickFollows(a: Code, b: Code, p: Path)
    requires Follow(Pick(a, b), p).Some?
    ensures p.Left? || p.Right?
    ensures Follow(Pick(a, b), p) == Follow(if p.Left? then a else b, p.p)
  {
  }

  lemma BalancedMeans(held: seq<nat>, t: Trace, lvids: seq<Info>)
    requires Balanced(held, t, lvids)
    ensures Exec(held, t.ops).Some? && (t.exit.Falls? ==> Match(Exec(held, t.ops).value, lvids))
  {
  }

  lemma BalancedIs(held: seq<nat>, t: Trace, lvids: seq<Info>)
    requires t.exit.Falls? && Exec(held, t.ops).Some? && Match(Exec(held, t.ops).value, lvids)
    ensures Balanced(held, t, lvids)
  {
  }

  lemma BalancedLeft(held: seq<nat>, t: Trace, lvids: seq<Info>, lvids': seq<Info>)
    requires !t.exit.Falls? && Balanced(held, t, lvids) && |lvids| == |lvids'|
    ensures Balanced(held, t, lvids')
  {
  }

  lemma BalancedView(held: seq<nat>, t: Trace, f: Frame, g: Frame)
    requires Balanced(held, t, f.lvids) && SameView(f, g)
    ensures Balanced(held, t, g.lvids)
  {
    hide Exec;
    if !t.exit.Falls? {
      BalancedLeft(held, t, f.lvids, g.lvids);
    } else {
      MatchView(Exec(held, t.ops).value, f, g);
    }
  }

  lemma {:induction false} SeqBalanced(a: Node, b: Node, f: Frame, hs: seq<Handler>, held: seq<nat>, p: Path)
    requires Proper(Seq(a, b), f, hs) && Nested(f) && Within(hs, f) && Match(held, f.lvids)
    requires Follow(Emit(Seq(a, b), f, hs).code, p).Some? && Clean(Follow(Emit(Seq(a, b), f, hs).code, p).value.caught)
    ensures var t := Follow(Emit(Seq(a, b), f, hs).code, p).value;
      Balanced(held, t, Emit(Seq(a, b), f, hs).frame.lvids) && RaisedIn(f, hs, t.exit)
    decreases p, a, 2
  {
    SeqParts(a, b, f, hs);
    hide Emit;
    hide Proper;
    hide Balanced;
    hide Exec;
    hide Follow;
    hide Clean;
    hide RaisedIn;
    var e1 := Emit(a, f, hs);
    var e2 := Emit(b, e1.frame, hs);
    JoinFollows(e1.code, e2.code, p);
    PathsBalanced(a, f, hs, held, p.first);
    EmitExtends(a, f, hs);
    EmitExtends(b, e1.frame, hs);
    var t := Follow(e1.code, p.first).value;
    if !t.exit.Falls? {
      BalancedLeft(held, t, e1.frame.lvids, e2.frame.lvids);
    } else {
      BalancedMeans(held, t, e1.frame.lvids);
      PathsBalanced(b, e1.frame, hs, Exec(held, t.ops).value, p.rest);
      RaisedBefore(f, e1.frame, hs, Follow(e2.code, p.rest).value.exit);
      ThenRuns(held, t, Follow(e2.code, p.rest).value, e1.frame.lvids, e2.frame.lvids);
    }
  }

  lemma SeqParts(a: Node, b: Node, f: Frame, hs: seq<Handler>)
    requires Proper(Seq(a, b), f, hs)
    ensures Proper(a, f, hs) && Proper(b, Emit(a, f, hs).frame, hs)
    ensures var e1 := Emit(a, f, hs);
      Emit(Seq(a, b), f, hs) == Emitted(Emit(b, e1.frame, hs).frame, Join(e1.code, Emit(b, e1.frame, hs).code))
  {
  }

  lemma {:induction false} BranchBalanced(a: Node, b: Node, f: Frame, hs: seq<Handler>, held: seq<nat>, p: Path)
    requires Proper(Branch(a, b), f, hs) && Nested(f) && Within(hs, f) && Match(held, f.lvids)
    requires Follow(Emit(Branch(a, b), f, hs).code, p).Some?
    requires Clean(Follow(Emit(Branch(a, b), f, hs).code, p).value.caught)
    ensures var t := Follow(Emit(Branch(a, b), f, hs).code, p).value;
      Balanced(held, t, Emit(Branch(a, b), f, hs).frame.lvids) && RaisedIn(f, hs, t.exit)
    decreases p, a, 2
  {
    BranchParts(a, b, f, hs);
    hide Emit;
    hide Proper;
    hide Balanced;
    hide Follow;
    hide Clean;
    hide RaisedIn;
    var e1 := Close(Emit(a, Open(f), hs), f.scope);
    var e2 := Close(Emit(b, Open(e1.frame), hs), f.scope);
    PickFollows(e1.code, e2.code, p);
    ScopeView(a, f, hs);
    ScopeView(b, e1.frame, hs);
    if p.Left? {
      ScopeBalanced(a, f, hs, held, p.p);
      BalancedView(held, Follow(e1.code, p.p).value, e1.frame, e2.frame);
    } else {
      MatchView(held, f, e1.frame);
      ScopeBalanced(b, e1.frame, hs, held, p.p);
      RaisedBefore(f, e1.frame, hs, Follow(e2.code, p.p).value.exit);
    }
  }

  lemma BranchParts(a: Node, b: Node, f: Frame, hs: seq<Handler>)
    requires Proper(Branch(a, b), f, hs)
    ensures Proper(a, Open(f), hs)
    ensures var e1 := Close(Emit(a, Open(f), hs), f.scope);
      && Proper(b, Open(e1.frame), hs) && e1.frame.scope == f.scope
      && Emit(Branch(a, b), f, hs) == Emitted(Close(Emit(b, Open(e1.frame), hs), f.scope).frame,
                                              Pick(e1.code, Close(Emit(b, Open(e1.frame), hs), f.scope).code))
  {
  }

  lemma {:induction false} LoopBalanced(n: Node, f: Frame, hs: seq<Handler>, held: seq<nat>, p: Path)
    requires Proper(n, Open(f), hs) && Nested(f) && Within(hs, f) && Match(held, f.lvids)
    requires Follow(Loop(Close(Emit(n, Open(f), hs), f.scope).code), p).Some?
    requires Clean(Follow(Loop(Close(Emit(n, Open(f), hs), f.scope).code), p).value.caught)
    ensures var t := Follow(Loop(Close(Emit(n, Open(f), hs), f.scope).code), p).value;
      Balanced(held, t, Close(Emit(n, Open(f), hs), f.scope).frame.lvids) && RaisedIn(f, hs, t.exit)
    decreases p, n, 2
  {
    hide Emit;
    hide Proper;
    hide Balanced;
    hide Follow;
    hide Close;
    hide Clean;
    hide RaisedIn;
    var e := Close(Emit(n, Open(f), hs), f.scope);
    ScopeView(n, f, hs);
    LoopFollows(e.code, p);
    if p.Here? {
      MatchView(held, f, e.frame);
      BalancedIs(held, Simply([]), e.frame.lvids);
      FallsAreNotRaised(f, hs, Falls);
    } else {
      ScopeBalanced(n, f, hs, held, p.first);
      var t := Follow(e.code, p.first).value;
      if t.exit.Falls? {
        BalancedMeans(held, t, e.frame.lvids);
        MatchView(Exec(held, t.ops).value, f, e.frame);
        LoopBalanced(n, f, hs, Exec(held, t.ops).value, p.rest);
        ThenRuns(held, t, Follow(Loop(e.code), p.rest).value, e.frame.lvids, e.frame.lvids);
      }
    }
  }

  // ---- paths through a block with a handler ----

  ghost function Ideal(lvids: seq<Info>): (r: seq<nat>)
    ensures Match(r, lvids) && forall i :: 0 <= i < |r| ==> r[i] == Owned(lvids, i)
  {
    seq(|lvids|, i requires 0 <= i < |lvids| => Owned(lvids, i))
  }

  // The handler, from what is owned out of the block
  lemma {:induction false} HandlerBalanced(any: bool, x: nat, h: Node, f: Frame, hs: seq<Handler>, p: Path)
    requires (!any ==> Fresh(f, x)) && Proper(h, Open(Named(f, any, x)), hs) && Nested(f) && Within(hs, f)
    requires var code := HandlerCode(any, x, Close(Emit(h, Open(Named(f, any, x)), hs), f.scope + 1).code);
      Follow(code, p).Some? && Clean(Follow(code, p).value.caught)
    ensures var u := Follow(HandlerCode(any, x, Close(Emit(h, Open(Named(f, any, x)), hs), f.scope + 1).code), p).value;
      Balanced(Ideal(f.lvids), u, f.lvids) && RaisedIn(f, hs, u.exit)
    decreases p, h, 2
  {
    hide Emit;
    hide Proper;
    hide Balanced;
    hide Follow;
    hide Close;
    hide Clean;
    hide RaisedIn;
    var g := Named(f, any, x);
    var e := Close(Emit(h, Open(g), hs), f.scope + 1);
    ScopeView(h, g, hs);
    if any {
      ScopeBalanced(h, g, hs, Ideal(f.lvids), p);
      BalancedView(Ideal(f.lvids), Follow(e.code, p).value, e.frame, g);
      RaisedOutside(f, hs, Follow(e.code, p).value.exit);
    } else {
      JoinFollows(Plain([Got(x)]), Join(e.code, Plain([Unref(x)])), p);
      PlainFollows([Got(x)], p.first);
      var held := Ideal(f.lvids)[x := 1];
      JoinFollows(e.code, Plain([Unref(x)]), p.rest);
      ScopeBalanced(h, g, hs, held, p.rest.first);
      var t := Follow(e.code, p.rest.first).value;
      NamedRuns(f, x, t, Follow(Join(e.code, Plain([Unref(x)])), p.rest).value, e.frame);
      RaisedBefore(Open(f), g, hs, t.exit);
      RaisedOutside(f, hs, t.exit);
      if t.exit.Falls? {
        FallsAreNotRaised(f, hs, Falls);
      }
    }
  }

  lemma PlainFollows(ops: seq<Op>, p: Path)
    requires Follow(Plain(ops), p).Some?
    ensures Follow(Plain(ops), p) == Some(Simply(ops))
  {
  }

  // The variable of the handler holds the error meanwhile
  lemma NamedRuns(f: Frame, x: nat, t: Trace, u: Trace, g: Frame)
    requires Fresh(f, x) && Balanced(Ideal(f.lvids)[x := 1], t, g.lvids) && SameView(Named(f, false, x), g)
    requires if t.exit.Falls? then u == Then(t, Simply([Unref(x)])) else u == t
    ensures Balanced(Ideal(f.lvids), Then(Simply([Got(x)]), u), f.lvids)
  {
    hide Exec;
    hide Releases;
    var held := Ideal(f.lvids);
    OneRuns(held, Got(x));
    ExecCat(held, [Got(x)], u.ops);
    assert held[x] == 0;
    if t.exit.Falls? {
      var now := Exec(held[x := 1], t.ops).value;
      assert Released(g.lvids[x], 0) && now[x] == 1;
      OneRuns(now, Unref(x));
      ExecCat(held[x := 1], t.ops, [Unref(x)]);
      forall r | 0 <= r < |f.lvids|
        ensures now[x := 0][r] == Owned(f.lvids, r)
      {
        if r != x {
          assert Named(f, false, x).lvids[r] == f.lvids[r];
        }
      }
    }
  }

  lemma CatchFollows(b: Block, handler: Code, body: Code, p: Path)
    requires Follow(Catch(b, handler, body), p).Some?
    ensures p.Both? && Follow(body, p.first).Some?
    ensures var t := Follow(body, p.first).value;
      if t.exit.Falls? then Follow(Catch(b, handler, body), p) == Some(Then(t, BlockEnds(b)))
      else if !t.exit.Jumps? || t.exit.k != b.depth then Follow(Catch(b, handler, body), p) == Some(t)
      else
        && Follow(handler, p.rest).Some?
        && Follow(Catch(b, handler, body), p) == Some(Handled(t, Follow(handler, p.rest).value, b))
  {
  }

  // The error of 't' caught by the block 'b', whose handler runs as 'u'
  function CaughtBy(t: Trace, u: Trace, b: Block): Caught
    requires t.exit.Jumps?
  {
    Caught(t.exit.from, t.exit.at, b, u.exit.Falls?)
  }

  lemma HandledClean(t: Trace, u: Trace, b: Block)
    requires t.exit.Jumps?
    ensures Clean(Handled(t, u, b).caught) <==> Clean(t.caught) && Clean(u.caught) && Harmless(CaughtBy(t, u, b))
    ensures Clean(Then(t, BlockEnds(b)).caught) ==> Clean(t.caught)
  {
    var c := CaughtBy(t, u, b);
    CleanParts(t.caught, [c] + u.caught);
    CleanParts([c], u.caught);
    assert Clean([c]) <==> Harmless([c][0]);
    assert u.caught + [] == u.caught && t.caught + [] == t.caught;
    assert Handled(t, u, b).caught == t.caught + ([c] + u.caught);
  }

  lemma WithinMore(hs: seq<Handler>, f: Frame, any: bool, g: Frame)
    requires Within(hs, f) && g.scope == f.scope + 1
    ensures Within(hs + [Handler(f.scope + 1, any)], g)
  {
  }

  // What the body of the block does
  lemma {:induction false} BodyBalanced(any: bool, x: nat, h: Node, n: Node, f: Frame, hs: seq<Handler>, held: seq<nat>,
                                        p: Path)
    requires Proper(Guard(any, x, h, n), f, hs) && Nested(f) && Within(hs, f) && Match(held, f.lvids)
    requires var e := Emit(n, BodyFrame(any, x, h, f, hs), hs + [Handler(f.scope + 1, any)]);
      Follow(e.code, p).Some? && Clean(Follow(e.code, p).value.caught)
    ensures var e := Emit(n, BodyFrame(any, x, h, f, hs), hs + [Handler(f.scope + 1, any)]);
      var t := Follow(e.code, p).value;
      && Balanced(held, t, e.frame.lvids) && |e.frame.lvids| == |f.lvids|
      && RaisedIn(Open(f), hs + [Handler(f.scope + 1, any)], t.exit)
    decreases p, n, 1
  {
    GuardParts(any, x, h, n, f, hs);
    hide Emit;
    hide Proper;
    hide Balanced;
    hide Follow;
    hide Clean;
    hide RaisedIn;
    BodyView(any, x, h, f, hs);
    hide BodyFrame;
    var g := BodyFrame(any, x, h, f, hs);
    var hs' := hs + [Handler(f.scope + 1, any)];
    WithinMore(hs, f, any, g);
    MatchView(held, Open(f), g);
    EmitExtends(n, g, hs');
    PathsBalanced(n, g, hs', held, p);
    ViewNested(Open(f), g);
    RaisedBefore(Open(f), g, hs', Follow(Emit(n, g, hs').code, p).value.exit);
  }

  lemma {:induction false} GuardBalanced(any: bool, x: nat, h: Node, n: Node, f: Frame, hs: seq<Handler>,
                                         held: seq<nat>, p: Path)
    requires Proper(Guard(any, x, h, n), f, hs) && Nested(f) && Within(hs, f) && Match(held, f.lvids)
    requires Follow(Emit(Guard(any, x, h, n), f, hs).code, p).Some?
    requires Clean(Follow(Emit(Guard(any, x, h, n), f, hs).code, p).value.caught)
    ensures var t := Follow(Emit(Guard(any, x, h, n), f, hs).code, p).value;
      Balanced(held, t, Emit(Guard(any, x, h, n), f, hs).frame.lvids) && RaisedIn(f, hs, t.exit)
    decreases p, Guard(any, x, h, n), -1
  {
    hide *;
    GuardParts(any, x, h, n, f, hs);
    var e1 := Close(Emit(h, Open(Named(f, any, x)), hs), f.scope + 1);
    var e2 := Emit(n, BodyFrame(any, x, h, f, hs), hs + [Handler(f.scope + 1, any)]);
    var b := Block(|hs|, f.scope + 1, f.lvids, e2.frame.lvids);
    CatchFollows(b, HandlerCode(any, x, e1.code), e2.code, p);
    var t := Follow(e2.code, p.first).value;
    var after := Close(e2, f.scope).frame;
    if t.exit.Jumps? && t.exit.k == |hs| {
      var u := Follow(HandlerCode(any, x, e1.code), p.rest).value;
      HandledClean(t, u, b);
      BodyBalanced(any, x, h, n, f, hs, held, p.first);
      HandlerBalanced(any, x, h, f, hs, p.rest);
      GuardView(any, x, h, n, f, hs);
      ViewSize(f, after);
      HandledExact(held, t, u, b, e2.frame.lvids, f, after);
      HandledExit(f, hs, t, u, b);
    } else {
      FallsClean(t, b);
      BodyBalanced(any, x, h, n, f, hs, held, p.first);
      BodyEnds(held, t, f, hs, any, b, e2);
    }
  }

  lemma ViewSize(f: Frame, g: Frame)
    requires SameView(f, g)
    ensures |g.lvids| == |f.lvids| && g.scope == f.scope
  {
  }

  // No error reaches the handler of the block
  lemma BodyEnds(held: seq<nat>, t: Trace, f: Frame, hs: seq<Handler>, any: bool, b: Block, e: Emitted)
    requires Balanced(held, t, e.frame.lvids) && |e.frame.lvids| == |f.lvids| && !(t.exit.Jumps? && t.exit.k == |hs|)
    requires b.scope == f.scope + 1 && b.end == e.frame.lvids
    requires RaisedIn(Open(f), hs + [Handler(f.scope + 1, any)], t.exit)
    ensures var w := if t.exit.Falls? then Then(t, BlockEnds(b)) else t;
      Balanced(held, w, Close(e, f.scope).frame.lvids) && RaisedIn(f, hs, w.exit)
  {
    hide Balanced;
    hide Exec;
    hide Releases;
    hide RaisedIn;
    var after := Close(e, f.scope).frame.lvids;
    if t.exit.Falls? {
      BalancedMeans(held, t, e.frame.lvids);
      CloseRuns(Exec(held, t.ops).value, e.frame, f.scope + 1);
      BalancedIs(Exec(held, t.ops).value, BlockEnds(b), after);
      ThenRuns(held, t, BlockEnds(b), e.frame.lvids, after);
      FallsAreNotRaised(f, hs, Falls);
    } else {
      BalancedLeft(held, t, e.frame.lvids, after);
      RaisedFurther(f, hs, any, t.exit);
    }
  }

  lemma FallsClean(t: Trace, b: Block)
    ensures Clean(Then(t, BlockEnds(b)).caught) <==> Clean(t.caught)
  {
    assert t.caught + [] == t.caught;
  }

  lemma HandledExit(f: Frame, hs: seq<Handler>, t: Trace, u: Trace, b: Block)
    requires t.exit.Jumps? && RaisedIn(f, hs, u.exit)
    ensures RaisedIn(f, hs, Handled(t, u, b).exit)
  {
  }

  lemma RaisedFurther(f: Frame, hs: seq<Handler>, any: bool, x: Exit)
    requires RaisedIn(Open(f), hs + [Handler(f.scope + 1, any)], x) && !(x.Jumps? && x.k == |hs|)
    ensures RaisedIn(f, hs, x)
  {
  }

  // An error caught by a block: the path is balanced exactly when this is harmless
  lemma HandledExact(held: seq<nat>, t: Trace, u: Trace, b: Block, mid: seq<Info>, f: Frame, g: Frame)
    requires t.exit.Jumps? && Balanced(held, t, mid) && Balanced(Ideal(b.outer), u, b.outer) && b.scope > 0
    requires |mid| == |b.outer| == |b.end| && b.outer == f.lvids && SameView(f, g)
    ensures Balanced(held, Handled(t, u, b), g.lvids) <==> Harmless(CaughtBy(t, u, b))
  {
    hide Exec;
    hide Releases;
    hide Balanced;
    var now := HandedOver(held, t, u, b, g.lvids, mid);
    var ideal := Ideal(b.outer);
    MatchView(ideal, f, g);
    TailExact(ideal, now, u, b, g.lvids);
  }

  // A path through a block, the other caught errors of which are harmless: when the error reaches the handler of this
  // block, the path is balanced exactly when this one is harmless too. The release begins at the block, before it when
  // a handler further out comes first, or further inside when the error comes from a block with a handler of any error.
  lemma CaughtExact(any: bool, x: nat, h: Node, n: Node, f: Frame, hs: seq<Handler>, held: seq<nat>, p: Path)
    requires Proper(Guard(any, x, h, n), f, hs) && Nested(f) && Within(hs, f) && Match(held, f.lvids) && p.Both?
    requires Follow(Emit(Guard(any, x, h, n), f, hs).code, p).Some?
    requires var e := Emit(n, BodyFrame(any, x, h, f, hs), hs + [Handler(f.scope + 1, any)]);
      && Follow(e.code, p.first).Some? && Clean(Follow(e.code, p.first).value.caught)
      && Follow(e.code, p.first).value.exit.Jumps? && Follow(e.code, p.first).value.exit.k == |hs|
    requires var handler := HandlerCode(any, x, Close(Emit(h, Open(Named(f, any, x)), hs), f.scope + 1).code);
      Follow(handler, p.rest).Some? && Clean(Follow(handler, p.rest).value.caught)
    ensures var e := Emit(n, BodyFrame(any, x, h, f, hs), hs + [Handler(f.scope + 1, any)]);
      var handler := HandlerCode(any, x, Close(Emit(h, Open(Named(f, any, x)), hs), f.scope + 1).code);
      var raised := Follow(e.code, p.first).value.exit;
      var done := Follow(handler, p.rest).value.exit.Falls?;
      var c := Caught(raised.from, raised.at, Block(|hs|, f.scope + 1, f.lvids, e.frame.lvids), done);
      var e' := Emit(Guard(any, x, h, n), f, hs);
      && (Balanced(held, Follow(e'.code, p).value, e'.frame.lvids) <==> Harmless(c))
      && (Harmless(c) <==> ReleasedOnce(c))
  {
    hide *;
    GuardParts(any, x, h, n, f, hs);
    var e1 := Close(Emit(h, Open(Named(f, any, x)), hs), f.scope + 1);
    var e2 := Emit(n, BodyFrame(any, x, h, f, hs), hs + [Handler(f.scope + 1, any)]);
    var b := Block(|hs|, f.scope + 1, f.lvids, e2.frame.lvids);
    var t := Follow(e2.code, p.first).value;
    var u := Follow(HandlerCode(any, x, e1.code), p.rest).value;
    CatchFollows(b, HandlerCode(any, x, e1.code), e2.code, p);
    BodyBalanced(any, x, h, n, f, hs, held, p.first);
    HandlerBalanced(any, x, h, f, hs, p.rest);
    GuardView(any, x, h, n, f, hs);
    HandledExact(held, t, u, b, e2.frame.lvids, f, Close(e2, f.scope).frame);
    CaughtIs(t, u, b);
    HarmlessMeans(CaughtBy(t, u, b), f, hs + [Handler(f.scope + 1, any)], t.exit);
  }

  lemma CaughtIs(t: Trace, u: Trace, b: Block)
    requires t.exit.Jumps?
    ensures CaughtBy(t, u, b) == Caught(t.exit.from, t.exit.at, b, u.exit.Falls?)
  {
  }

  // ---- whole functions ----

  function Takes(ops: seq<Op>, r: nat): nat {
    if ops == [] then 0 else (if ops[0].lvid == r && ops[0].Gives() then 1 else 0) + Takes(ops[1..], r)
  }

  function Drops(ops: seq<Op>, r: nat): nat {
    if ops == [] then 0 else (if ops[0].lvid == r && !ops[0].Gives() then 1 else 0) + Drops(ops[1..], r)
  }

  lemma {:induction false} ExecCounts(held: seq<nat>, ops: seq<Op>, r: nat)
    requires Exec(held, ops).Some? && r < |held|
    ensures held[r] + Takes(ops, r) == Exec(held, ops).value[r] + Drops(ops, r)
    decreases |ops|
  {
    if ops != [] {
      var l := ops[0].lvid;
      ExecCounts(if ops[0].Gives() then held[l := held[l] + 1] else held[l := held[l] - 1], ops[1..], r);
    }
  }

  function Start(registers: nat): Frame { Frame(seq(registers, _ => Info(-1, false)), 0) }

  function Body(n: Node, registers: nat): Code {
    var e := Emit(n, Start(registers), []);
    Join(e.code, Plain(ReleaseAll(e.frame.lvids, 0)))
  }

  // On every path from the beginning of a function to its end, to a return or to an unwinding error, on which the
  // caught errors are harmless: each acquired register is released exactly once per acquisition, never before and never
  // more, and a returned object or a raised error leaves with exactly one reference for the caller
  lemma FunctionBalanced(n: Node, registers: nat, p: Path)
    requires Proper(n, Start(registers), []) && Follow(Body(n, registers), p).Some?
    requires Clean(Follow(Body(n, registers), p).value.caught)
    ensures var t := Follow(Body(n, registers), p).value;
      && Exec(seq(registers, _ => 0), t.ops).Some? && !t.exit.Jumps?
      && (forall r :: 0 <= r < registers ==>
            Takes(t.ops, r) == Drops(t.ops, r) + if t.exit == Leaves(Some(r)) then 1 else 0)
  {
    hide Emit;
    hide Proper;
    hide Follow;
    hide Clean;
    var f := Start(registers);
    var zeros: seq<nat> := seq(registers, _ => 0);
    var e := Emit(n, f, []);
    var last := ReleaseAll(e.frame.lvids, 0);
    JoinFollows(e.code, Plain(last), p);
    PathsBalanced(n, f, [], zeros, p.first);
    var t := Follow(e.code, p.first).value;
    var whole := Follow(Body(n, registers), p).value;
    if t.exit.Falls? {
      CloseRuns(Exec(zeros, t.ops).value, e.frame, 0);
      ExecCat(zeros, t.ops, last);
    }
    forall r | 0 <= r < registers
      ensures Takes(whole.ops, r) == Drops(whole.ops, r) + if whole.exit == Leaves(Some(r)) then 1 else 0
    {
      ExecCounts(zeros, whole.ops, r);
    }
  }

  // ---- what goes wrong ----

  const NEW: Info := Info(-1, false)

  // A block whose handler does nothing but to declare the register 0, and which owns the register 1 when it raises an
  // error: this register is released by the raise, and by the end of the block
  const RAISED_TWICE: Node := Guard(true, 0, Borrow(0), Seq(Own(1), Throw(1, 0)))

  lemma NothingReleased(a: Info, b: Info, scope: int)
    ensures ReleaseAll([a, b], scope)
         == (if Released(b, scope) then [Unref(1)] else []) + (if Released(a, scope) then [Unref(0)] else [])
  {
    assert Releases([a, b], scope, 1) == (if Released(a, scope) then [Unref(0)] else []) + Releases([a, b], scope, 0);
  }

  lemma EmptyHandler()
    ensures var e := Close(Emit(Borrow(0), Frame([NEW, NEW], 2), []), 1);
      e.frame == Frame([NEW, NEW], 1) && e.code == Join(Plain([]), Plain([]))
  {
    var lvids := [NEW, NEW][0 := Info(2, false)];
    assert lvids == [Info(2, false), NEW];
    NothingReleased(Info(2, false), NEW, 2);
    assert Forgotten(lvids, 2) == [NEW, NEW];
  }

  lemma RaisedTwiceCode()
    ensures Proper(RAISED_TWICE, Frame([NEW, NEW], 0), [])
    ensures Emit(RAISED_TWICE, Frame([NEW, NEW], 0), []).code
         == Catch(Block(0, 1, [NEW, NEW], [NEW, Info(1, true)]), Join(Plain([]), Plain([])),
                  Join(Plain([Ref(1)]), Jump([Unref(1)], 0, 1, None, [NEW, Info(1, true)])))
  {
    var f := Frame([NEW, NEW], 0);
    var hs := [] + [Handler(1, true)];
    EmptyHandler();
    assert hs == [Handler(1, true)];
    var g := Frame([NEW, NEW], 1);
    assert BodyFrame(true, 0, Borrow(0), f, []) == g;
    var lvids := [NEW, NEW][1 := Info(1, true)];
    assert lvids == [NEW, Info(1, true)];
    NothingReleased(NEW, Info(1, true), 1);
    assert Emit(Own(1), g, hs).frame == Frame(lvids, 1);
    assert RaiseTo(Frame(lvids, 1), 1, hs[0]) == [Unref(1)];
    hide Close;
    assert Emit(Throw(1, 0), Frame(lvids, 1), hs).code == Jump([Unref(1)], 0, 1, None, lvids);
    assert Proper(Borrow(0), Open(Named(f, true, 0)), []);
    assert Proper(Seq(Own(1), Throw(1, 0)), g, hs);
  }

  lemma RaisedTwice()
    ensures var p := Both(Both(Here, Here), Both(Here, Here));
      var t := Follow(Emit(RAISED_TWICE, Frame([NEW, NEW], 0), []).code, p);
      && Proper(RAISED_TWICE, Frame([NEW, NEW], 0), []) && t.Some?
      && t.value.ops == [Ref(1), Unref(1), Unref(1)] && Exec([0, 0], t.value.ops) == None
  {
    RaisedTwiceCode();
    hide Emit;
    hide Proper;
    var lvids := [NEW, Info(1, true)];
    var b := Block(0, 1, [NEW, NEW], lvids);
    var t := Trace([Ref(1)] + [Unref(1)], Jumps(0, 1, None, lvids), [] + []);
    var body := Join(Plain([Ref(1)]), Jump([Unref(1)], 0, 1, None, lvids));
    assert Follow(Jump([Unref(1)], 0, 1, None, lvids), Here) == Some(Trace([Unref(1)], Jumps(0, 1, None, lvids), []));
    assert Follow(body, Both(Here, Here)) == Some(t);
    var u := Then(Simply([]), Simply([]));
    assert Follow(Join(Plain([]), Plain([])), Both(Here, Here)) == Some(u);
    NothingReleased(NEW, Info(1, true), 1);
    assert Handled(t, u, b).ops == [Ref(1), Unref(1), Unref(1)];
    TwiceFails();
  }

  lemma TwiceFails()
    ensures Exec([0, 0], [Ref(1), Unref(1), Unref(1)]) == None
  {
    hide Exec;
    var ops := [Ref(1), Unref(1), Unref(1)];
    assert ops[1..] == [Unref(1), Unref(1)] && ops[1..][1..] == [Unref(1)];
    assert [0, 0][1 := 1] == [0, 1] && [0, 1][1 := 0] == [0, 0];
    ExecFirst([0, 0], ops);
    ExecFirst([0, 1], ops[1..]);
    ExecFirst([0, 0], [Unref(1)]);
  }

  // The body { call 0 } whose result is an object: when the call raises an error, its result is released all the same
  lemma RaisingObject()
    ensures var t := Follow(Emit(Call(0, true, true), Frame([NEW], 0), []).code, Right(Here));
      t.Some? && t.value.ops == [Unref(0)] && Exec([0], t.value.ops) == None
  {
    var f := Frame([NEW], 0);
    assert Declared(f, 0, true).lvids == [Info(0, true)];
    assert Releases([Info(0, true)], 0, 0) == [];
    assert ReleaseAll([Info(0, true)], 0) == [Unref(0)];
    ExecFirst([0], [Unref(0)]);
  }

  // A return, in one branch only, of a register which owns nothing
  const BORROWED_RETURN: Node := Seq(Borrow(0), Branch(Return(0), Scope(Borrow(1))))

  lemma BorrowedScope(a: Info)
    requires a.scope < 1
    ensures var e := Close(Emit(Borrow(1), Frame([a, NEW], 2), []), 1);
      e.frame == Frame([a, NEW], 1) && e.code == Join(Plain([]), Plain([]))
    ensures Forgotten([a, NEW], 1) == [a, NEW]
  {
    var lvids := [a, NEW][1 := Info(2, false)];
    assert lvids == [a, Info(2, false)];
    NothingReleased(a, Info(2, false), 2);
    assert Forgotten(lvids, 2) == [a, NEW];
  }

  // Both branches, once the register 0 is declared
  lemma BorrowedBranches()
    ensures Emit(Branch(Return(0), Scope(Borrow(1))), Frame([Info(0, false), NEW], 0), [])
         == Emitted(Frame([Info(0, true), NEW], 0),
                    Pick(Join(Leave([Ref(0), Unref(0)], Some(0)), Plain([])),
                         Join(Join(Plain([]), Plain([])), Plain([]))))
  {
    var f := Frame([Info(0, false), NEW], 0);
    var mine := Info(0, true);
    var lvids := [mine, NEW];
    assert Acquired(f.lvids, 0) == lvids;
    NothingReleased(mine, NEW, 0);
    NothingReleased(mine, NEW, 1);
    BorrowedScope(mine);
    assert ReturnOps(f.lvids, 0) == [Ref(0), Unref(0)];
    hide ReleaseAll;
    hide Forgotten;
    hide ReturnOps;
    hide Acquired;
    assert Emit(Return(0), Open(f), []) == Emitted(Frame(lvids, 1), Leave([Ref(0), Unref(0)], Some(0)));
    assert Emit(Scope(Borrow(1)), Frame(lvids, 1), []) == Emitted(Frame(lvids, 1), Join(Plain([]), Plain([])));
    var a := Close(Emitted(Frame(lvids, 1), Leave([Ref(0), Unref(0)], Some(0))), 0);
    assert a == Emitted(Frame(lvids, 0), Join(Leave([Ref(0), Unref(0)], Some(0)), Plain([])));
    var b := Close(Emitted(Frame(lvids, 1), Join(Plain([]), Plain([]))), 0);
    assert b == Emitted(Frame(lvids, 0), Join(Join(Plain([]), Plain([])), Plain([])));
    hide Close;
  }

  lemma BorrowedCode()
    ensures Body(BORROWED_RETURN, 2)
         == Join(Join(Plain([]), Pick(Join(Leave([Ref(0), Unref(0)], Some(0)), Plain([])),
                                      Join(Join(Plain([]), Plain([])), Plain([])))),
                 Plain([Unref(0)]))
  {
    var f := Start(2);
    assert f.lvids == [NEW, NEW];
    assert Declared(f, 0, false) == Frame([Info(0, false), NEW], 0);
    BorrowedBranches();
    assert Emit(Borrow(0), f, []) == Emitted(Frame([Info(0, false), NEW], 0), Plain([]));
    NothingReleased(Info(0, true), NEW, 0);
    assert [] + [Unref(0)] == [Unref(0)];
    hide ReleaseAll;
  }

  // The register is returned without a reference for the caller; and when the other branch is taken, it is released
  // though it holds none
  lemma BorrowedReturn()
    ensures var t := Follow(Body(BORROWED_RETURN, 2), Both(Both(Here, Left(Both(Here, Here))), Here));
      && t.Some? && t.value.ops == [Ref(0), Unref(0)] && t.value.exit == Leaves(Some(0))
      && Exec([0, 0], t.value.ops) == Some([0, 0])
    ensures var t := Follow(Body(BORROWED_RETURN, 2), Both(Both(Here, Right(Both(Both(Here, Here), Here))), Here));
      && t.Some? && t.value.ops == [Unref(0)] && Exec([0, 0], t.value.ops) == None
  {
    BorrowedCode();
    hide Body;
    var left := Join(Leave([Ref(0), Unref(0)], Some(0)), Plain([]));
    var right := Join(Join(Plain([]), Plain([])), Plain([]));
    var t := Trace([Ref(0), Unref(0)], Leaves(Some(0)), []);
    assert Follow(left, Both(Here, Here)) == Some(t);
    assert Then(Simply([]), t) == t;
    assert Follow(Join(Plain([]), Pick(left, right)), Both(Here, Left(Both(Here, Here)))) == Some(t);
    var none := Simply([]);
    assert Then(none, none) == none;
    assert Follow(right, Both(Both(Here, Here), Here)) == Some(none);
    assert Follow(Join(Plain([]), Pick(left, right)), Both(Here, Right(Both(Both(Here, Here), Here)))) == Some(none);
    assert [] + [Unref(0)] == [Unref(0)];
    BorrowedRuns();
  }

  lemma BorrowedRuns()
    ensures Exec([0, 0], [Ref(0), Unref(0)]) == Some([0, 0]) && Exec([0, 0], [Unref(0)]) == None
  {
    hide Exec;
    var ops := [Ref(0), Unref(0)];
    assert ops[1..] == [Unref(0)] && ops[1..][1..] == [];
    assert [0, 0][0 := 1][0 := 0] == [0, 0];
    ExecNone([0, 0]);
    ExecFirst([0, 0], ops);
    ExecFirst([0, 0][0 := 1], [Unref(0)]);
    ExecFirst([0, 0], [Unref(0)]);
  }
}
