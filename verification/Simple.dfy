// Statements made of one expression: assignments, assertions, observed values, returns and raised errors. The code is
// the one of the expression followed by one instruction, within the scope of a call or of the statement. What the
// register of the result holds is stored, checked, observed, returned or raised, and the other registers are kept.
module Simple {
  import opened Isa
  import opened Jumps
  import opened Machine
  import opened Handlers
  import opened Source
  import opened Emitter
  import opened Layout
  import opened Untidy
  import opened Running
  import opened Dispatching
  import opened Correspondence
  import opened Branching
  import opened Expressions

  // A run of the function is cut short, while the names in scope have the values 'env'
  ghost predicate StmtStopped(w: Site, s: State, t: State, n: nat, x: Exit, env: Env) {
    match x
    case Caught(k, error) =>
      && k < |w.hp| && |w.hp| == w.c.hs.Size()
      && Ready(w.m, t, w.f, w.hp[k] + 1, false)
      && Keeps(s, t, n, Slots(w.c) + {w.c.hs.At(k).target + 1})
      && (k < |w.c.hs.typed| ==> Holds(t, w.c.hs.At(k).target + 1, error))
      && Agree(w.c, env, t.act.regs)
    case Unwound(atomid, error) => Popped(s, t, t.retval, true) && t.error == error && t.errorType == atomid
    case _ => CutShort(w.m, t, x)
  }

  ghost predicate StmtDone(w: Site, s: State, t: State, pos: nat, n: nat, out: StmtOut) {
    && t.trace == out.trace
    && match out
       case Normal(env, _) =>
         Ready(w.m, t, w.f, pos, false) && Keeps(s, t, n, Slots(w.c)) && Agree(w.c, env, t.act.regs)
       case Returned(v, _) => Popped(s, t, v, false)
       case StmtExit(x, env, _) => StmtStopped(w, s, t, n, x, env)
  }

  // The statement is about to run
  ghost predicate StmtAt(w: Site, s: State, pos: nat, st: Stmt, n: nat, env: Env) {
    && Start(w, s, pos, n) && Stands(w, pos, EmitStmt(st, w.c, n).code)
    && EmitStmt(st, w.c, n).n <= w.top && GoodStmt(w.p, st, w.c.names.Keys, ShieldOf(w.c.hs))
    && Agree(w.c, env, s.act.regs)
  }

  lemma StmtIsAt(w: Site, s: State, pos: nat, st: Stmt, n: nat, env: Env)
    requires Start(w, s, pos, n) && Stands(w, pos, EmitStmt(st, w.c, n).code)
    requires EmitStmt(st, w.c, n).n <= w.top && GoodStmt(w.p, st, w.c.names.Keys, ShieldOf(w.c.hs))
    requires Agree(w.c, env, s.act.regs)
    ensures StmtAt(w, s, pos, st, n, env)
  {
    hide EmitStmt;
    hide GoodStmt;
    hide Start;
  }

  // The expression of a statement was cut short: so is the statement
  lemma ExprStops(w: Site, s: State, t0: State, t: State, pos0: nat, n: nat, n1: nat, env: Env, out: ExprOut)
    requires out.ExprExit? && ExprDone(w, t0, t, 0, 0, n1, out) && Keeps(s, t0, n, Slots(w.c)) && n <= n1
    requires Start(w, t0, pos0, n1) && Agree(w.c, env, t0.act.regs)
    ensures forall pos :: StmtDone(w, s, t, pos, n, StmtExit(out.exit, env, out.trace))
  {
    if out.exit.Caught? {
      KeepsAgree(w.c, env, t0, t, n1, {w.c.hs.At(out.exit.k).target + 1});
      assert forall x :: x in w.c.names ==> w.c.names[x] in Slots(w.c);
      KeepsTrans(s, t0, t, n, n1, Slots(w.c), {w.c.hs.At(out.exit.k).target + 1});
    }
  }

  lemma NoSlots(w: Site, s: State, t: State, n: nat)
    requires Keeps(s, t, n, {})
    ensures Keeps(s, t, n, Slots(w.c))
  {
  }

  // What a statement does with the value of its expression
  function SimpleOut(st: Stmt, env: Env, h: Shield, o: ExprOut): StmtOut {
    match o
    case ExprExit(exit, trace) => StmtExit(exit, env, trace)
    case Value(v, trace) =>
      match st
      case Assign(x, _) => Normal(env[x := v], trace)
      case Observe(iid, _) => Normal(env, trace + [Event(iid, [v])])
      case Assert(_) => if v == 0 then StmtExit(Crashed(AssertFailed), env, trace) else Normal(env, trace)
      case Return(_) => Returned(v, trace)
      case Throw(atomid, _) => StmtExit(Raised(h, atomid, v), env, trace)
      case _ => Normal(env, trace)
  }

  predicate IsSimple(st: Stmt) {
    st.Assign? || st.Eval? || st.Observe? || st.Assert? || st.Return? || st.Throw?
  }

  lemma UnfoldSimpleRun(p: seq<Func>, st: Stmt, env: Env, h: Shield, trace: seq<Event>, fuel: nat)
    requires IsSimple(st)
    ensures RunStmt(p, st, env, h, trace, fuel) == SimpleOut(st, env, h, RunExpr(p, st.e, env, h, trace, fuel))
  {
    hide RunExpr;
    hide Raised;
  }

  lemma DoesSimpleRun(q: seq<Func>, st: Stmt, env: Env, h: Shield, trace: seq<Event>, fuel: nat)
    requires IsSimple(st)
    ensures RunStmt(q, Does(st), env, h, trace, fuel) == SimpleOut(st, env, h, RunExpr(q, st.e, env, h, trace, fuel))
  {
    UnfoldSimpleRun(q, st, env, h, trace, fuel);
    hide RunStmt;
    hide RunExpr;
    hide Raised;
  }

  // ---- operations ----

  lemma AssignDone(w: Site, s0: State, s: State, pos: nat, x: nat, lvid: nat, n: nat, last: nat, env: Env, v: u64)
    returns (t: State)
    requires Start(w, s, pos, last) && x in w.c.names && Holds(s, lvid, v) && Agree(w.c, env, s.act.regs)
    requires Stands(w, pos, [Store(w.c.Slot(x), lvid)] + ([ScopeEnd] + Dispatch(w.c.hs, last + 1)))
    requires UpTo(w.Text(), pos) <= last && Keeps(s0, s, n, {})
    ensures Reaches(w.m, s, t)
    ensures StmtDone(w, s0, t, pos + 2 + |Dispatch(w.c.hs, last + 1)|, n, Normal(env[x := v], s.trace))
  {
    hide Dispatch;
    hide Stands;
    t := Finish(w, s, pos, Store(w.c.Slot(x), lvid), last);
    assert w.c.names[x] in Slots(w.c);
  }

  lemma AssertDone(w: Site, s0: State, s: State, pos: nat, lvid: nat, n: nat, last: nat, env: Env, v: u64)
    returns (t: State)
    requires Start(w, s, pos, last) && Holds(s, lvid, v) && Agree(w.c, env, s.act.regs)
    requires Stands(w, pos, [Opassert(lvid)] + ([ScopeEnd] + Dispatch(w.c.hs, last + 1)))
    requires UpTo(w.Text(), pos) <= last && Keeps(s0, s, n, {})
    ensures Reaches(w.m, s, t)
    ensures StmtDone(w, s0, t, pos + 2 + |Dispatch(w.c.hs, last + 1)|, n,
                     if v == 0 then StmtExit(Crashed(AssertFailed), env, s.trace) else Normal(env, s.trace))
  {
    hide Dispatch;
    hide Stands;
    t := Finish(w, s, pos, Opassert(lvid), last);
  }

  lemma EvalDone(w: Site, s0: State, s: State, pos: nat, n: nat, last: nat, env: Env) returns (t: State)
    requires Start(w, s, pos, last) && Agree(w.c, env, s.act.regs) && Stands(w, pos, [ScopeEnd]) && Keeps(s0, s, n, {})
    ensures Reaches(w.m, s, t) && StmtDone(w, s0, t, pos + 1, n, Normal(env, s.trace))
  {
    t := StartIdle(w, s, pos, last, [ScopeEnd], last);
  }

  lemma ObserveDone(w: Site, s0: State, s: State, pos: nat, lvid: nat, iid: nat, n: nat, last: nat, env: Env, v: u64)
    returns (t: State)
    requires Start(w, s, pos, last) && Agree(w.c, env, s.act.regs) && Keeps(s0, s, n, {}) && Holds(s, lvid, v)
    requires Stands(w, pos, [Push(lvid), Intrinsic(iid), ScopeEnd])
    ensures Reaches(w.m, s, t)
    ensures StmtDone(w, s0, t, pos + 3, n, Normal(env, s.trace + [Event(iid, [v])]))
  {
    StartSize(w, s, pos, last);
    hide Start;
    t := ObserveRun(w, s, pos, lvid, iid, v);
  }

  lemma PushStep(w: Site, s: State, pos: nat, lvid: nat, v: u64) returns (t: State)
    requires Ready(w.m, s, w.f, pos, false) && Stands(w, pos, [Push(lvid)]) && Holds(s, lvid, v)
    ensures Reaches(w.m, s, t) && t == s.(act := s.act.(pc := pos + 1), params := [v])
    ensures UpTo(w.Text(), pos + 1) == UpTo(w.Text(), pos)
  {
    Reads(w, pos, [Push(lvid)], 0);
    t := Step(w.m, s);
    ReachStep(w.m, s);
  }

  lemma ObserveRun(w: Site, s: State, pos: nat, lvid: nat, iid: nat, v: u64) returns (t: State)
    requires Ready(w.m, s, w.f, pos, false) && Stands(w, pos, [Push(lvid), Intrinsic(iid), ScopeEnd])
    requires Holds(s, lvid, v)
    ensures Reaches(w.m, s, t) && Ready(w.m, t, w.f, pos + 3, false)
    ensures Moved(s.(trace := s.trace + [Event(iid, [v])]), t, s.act.regs)
  {
    assert [Push(lvid), Intrinsic(iid), ScopeEnd] == [Push(lvid)] + ([Intrinsic(iid)] + [ScopeEnd]);
    Split(w, pos, [Push(lvid)], [Intrinsic(iid)] + [ScopeEnd]);
    Split(w, pos + 1, [Intrinsic(iid)], [ScopeEnd]);
    Reads(w, pos + 1, [Intrinsic(iid)], 0);
    Reads(w, pos + 2, [ScopeEnd], 0);
    hide Stands;
    var t1 := PushStep(w, s, pos, lvid, v);
    var t2 := Step(w.m, t1);
    ReachStep(w.m, t1);
    ReachTrans(w.m, s, t1, t2);
    t := IdleRun(w.m, t2, w.f, pos + 2, pos + 3, false);
    ReachTrans(w.m, s, t2, t);
  }

  lemma ReturnOut(w: Site, s: State, pos: nat, lvid: nat, v: u64) returns (t: State)
    requires Ready(w.m, s, w.f, pos, false) && CanReturn(s) && Holds(s, lvid, v)
    requires Stands(w, pos, [Ret(lvid), ScopeEnd])
    ensures Reaches(w.m, s, t) && Popped(s, t, v, false) && t.trace == s.trace
  {
    Reads(w, pos, [Ret(lvid), ScopeEnd], 0);
    t := Step(w.m, s);
    ReachStep(w.m, s);
  }

  lemma ReturnDone(w: Site, s0: State, s: State, pos: nat, lvid: nat, n: nat, last: nat, v: u64) returns (t: State)
    requires Start(w, s, pos, last) && Keeps(s0, s, n, {}) && Holds(s, lvid, v) && last + 1 <= w.top
    requires Stands(w, pos, [Stackalloc(last + 1), Ret(lvid), ScopeEnd])
    ensures Reaches(w.m, s, t) && forall pos' :: StmtDone(w, s0, t, pos', n, Returned(v, s.trace))
  {
    assert [Stackalloc(last + 1), Ret(lvid), ScopeEnd] == [Stackalloc(last + 1)] + [Ret(lvid), ScopeEnd];
    Split(w, pos, [Stackalloc(last + 1)], [Ret(lvid), ScopeEnd]);
    Reads(w, pos, [Stackalloc(last + 1)], 0);
    hide Scene;
    hide Scoped;
    hide GoodProgram;
    hide Stands;
    hide UpTo;
    var t1 := IdleRun(w.m, s, w.f, pos, pos + 1, false);
    t := ReturnOut(w, t1, pos + 1, lvid, v);
    ReachTrans(w.m, s, t1, t);
  }

  // ---- a direct 'raise' ----

  lemma RaiseOut(w: Site, s: State, pos: nat, lvid: nat, atomid: nat, v: u64) returns (t: State)
    requires Ready(w.m, s, w.f, pos, false) && CanReturn(s) && Holds(s, lvid, v)
    requires Stands(w, pos, [Raise(lvid, 0, atomid), ScopeEnd])
    ensures Reaches(w.m, s, t) && Popped(s, t, t.retval, true) && t.error == v && t.errorType == atomid
    ensures t.trace == s.trace
  {
    Reads(w, pos, [Raise(lvid, 0, atomid), ScopeEnd], 0);
    t := Step(w.m, s);
    ReachStep(w.m, s);
  }

  lemma RaiseIn(w: Site, s: State, pos: nat, lvid: nat, atomid: nat, k: nat, n: nat, v: u64) returns (t: State)
    requires Ready(w.m, s, w.f, pos, false) && Holds(s, lvid, v) && Scene(w.m, w.f, pos, n, w.c.hs, w.hp)
    requires k < |w.hp| && w.c.hs.At(k).target + 1 < |s.act.regs|
    requires Stands(w, pos, [Raise(lvid, w.c.hs.At(k).target, atomid), ScopeEnd])
    ensures Reaches(w.m, s, t) && t.trace == s.trace && Ready(w.m, t, w.f, w.hp[k] + 1, false)
    ensures Moved(s.(error := v, errorType := atomid), t, s.act.regs[w.c.hs.At(k).target + 1 := v])
  {
    var id := w.c.hs.At(k).target;
    Reads(w, pos, [Raise(lvid, id, atomid), ScopeEnd], 0);
    assert HandlerAt(w.Text(), pos, w.hp[k], id, n);
    t := Step(w.m, s);
    ReachStep(w.m, s);
    hide UpTo;
    hide OrderedLabels;
    Backward(w.m, s.(error := v, errorType := atomid), w.f, s.act.regs[id + 1 := v], id, w.hp[k]);
  }

  lemma RaiseGoes(c: Ctx, atomid: nat, v: u64)
    ensures Raised(ShieldOf(c.hs), atomid, v).Unwound? ==>
      c.RaiseTarget(atomid) == 0 && Raised(ShieldOf(c.hs), atomid, v) == Unwound(atomid, v)
    ensures Raised(ShieldOf(c.hs), atomid, v).Caught? ==>
      var k := Raised(ShieldOf(c.hs), atomid, v).k;
      k < c.hs.Size() && c.RaiseTarget(atomid) == c.hs.At(k).target && Raised(ShieldOf(c.hs), atomid, v) == Caught(k, v)
    ensures !Raised(ShieldOf(c.hs), atomid, v).Crashed? && Raised(ShieldOf(c.hs), atomid, v) != Timeout
  {
  }

  lemma ThrowOut(w: Site, s0: State, s: State, pos: nat, lvid: nat, atomid: nat, n: nat, last: nat, env: Env, v: u64)
    returns (t: State)
    requires Start(w, s, pos, last) && Keeps(s0, s, n, {}) && Holds(s, lvid, v) && Agree(w.c, env, s.act.regs)
    requires n <= last <= w.top
    requires Stands(w, pos, [Raise(lvid, w.c.RaiseTarget(atomid), atomid), ScopeEnd])
    requires Raised(ShieldOf(w.c.hs), atomid, v).Unwound?
    ensures Reaches(w.m, s, t)
    ensures forall pos' :: StmtDone(w, s0, t, pos', n, StmtExit(Raised(ShieldOf(w.c.hs), atomid, v), env, s.trace))
  {
    hide Stands;
    hide UpTo;
    hide HandlerAt;
    hide OrderedLabels;
    hide GoodProgram;
    RaiseGoes(w.c, atomid, v);
    hide Raised;
    t := RaiseOut(w, s, pos, lvid, atomid, v);
  }

  lemma ThrowIn(w: Site, s0: State, s: State, pos: nat, lvid: nat, atomid: nat, n: nat, last: nat, env: Env, v: u64)
    returns (t: State)
    requires Start(w, s, pos, last) && Keeps(s0, s, n, {}) && Holds(s, lvid, v) && Agree(w.c, env, s.act.regs)
    requires n <= last <= w.top
    requires Stands(w, pos, [Raise(lvid, w.c.RaiseTarget(atomid), atomid), ScopeEnd])
    requires Raised(ShieldOf(w.c.hs), atomid, v).Caught?
    ensures Reaches(w.m, s, t)
    ensures forall pos' :: StmtDone(w, s0, t, pos', n, StmtExit(Raised(ShieldOf(w.c.hs), atomid, v), env, s.trace))
  {
    hide Stands;
    hide UpTo;
    hide HandlerAt;
    hide OrderedLabels;
    hide GoodProgram;
    RaiseGoes(w.c, atomid, v);
    hide Raised;
    t := RaiseIn(w, s, pos, lvid, atomid, Raised(ShieldOf(w.c.hs), atomid, v).k, last, v);
    assert forall y :: y in w.c.names ==> w.c.names[y] in Slots(w.c);
  }

  lemma ThrowDone(w: Site, s0: State, s: State, pos: nat, lvid: nat, atomid: nat, n: nat, last: nat, env: Env, v: u64)
    returns (t: State)
    requires Start(w, s, pos, last) && Keeps(s0, s, n, {}) && Holds(s, lvid, v) && Agree(w.c, env, s.act.regs)
    requires n <= last <= w.top
    requires Stands(w, pos, [Raise(lvid, w.c.RaiseTarget(atomid), atomid), ScopeEnd])
    requires Raised(ShieldOf(w.c.hs), atomid, v) != Leaked
    ensures Reaches(w.m, s, t)
    ensures forall pos' :: StmtDone(w, s0, t, pos', n, StmtExit(Raised(ShieldOf(w.c.hs), atomid, v), env, s.trace))
  {
    hide *;
    RaiseGoes(w.c, atomid, v);
    if Raised(ShieldOf(w.c.hs), atomid, v).Unwound? {
      t := ThrowOut(w, s0, s, pos, lvid, atomid, n, last, env, v);
    } else {
      t := ThrowIn(w, s0, s, pos, lvid, atomid, n, last, env, v);
    }
  }

  // ---- the statements ----

  lemma SimpleStops(w: Site, s: State, t0: State, t: State, pos0: nat, st: Stmt, n: nat, n1: nat, env: Env, h: Shield,
                    out: ExprOut)
    requires out.ExprExit? && forall pos', lvid :: ExprDone(w, s, t, pos', lvid, n, out)
    requires Start(w, s, pos0, n) && Agree(w.c, env, s.act.regs)
    ensures forall pos :: StmtDone(w, s, t, pos, n, SimpleOut(st, env, h, out))
  {
    hide Start;
    hide Agree;
    hide StmtDone;
    assert ExprDone(w, s, t, 0, 0, n, out);
    KeepsSelf(s, n);
    NoSlots(w, s, s, n);
    ExprStops(w, s, s, t, pos0, n, n, env, out);
  }

  lemma CallStmtParts(w: Site, s: State, pos: nat, st: Stmt, n: nat, env: Env, fuel: nat) returns (op: Instr)
    requires st.Assign? || st.Assert?
    requires StmtAt(w, s, pos, st, n, env)
    ensures var a := EmitExpr(st.e, w.c, n + 2);
      && EmitStmt(st, w.c, n).code == MakeCall(a.code, [op], w.c.hs, n, a.n).code
      && n + 2 < a.n <= w.top
      && op == (if st.Assign? then Store(w.c.Slot(st.x), a.lvid) else Opassert(a.lvid))
    ensures var out := RunExpr(DoesAll(w.p), st.e, env, ShieldOf(w.c.hs), s.trace, fuel);
      && RunStmt(DoesAll(w.p), Does(st), env, ShieldOf(w.c.hs), s.trace, fuel)
        == SimpleOut(st, env, ShieldOf(w.c.hs), out)
    ensures GoodExpr(w.p, st.e, w.c.names.Keys) && (st.Assign? ==> st.x in w.c.names)
    ensures Start(w, s, pos, n) && Stands(w, pos, EmitStmt(st, w.c, n).code) && Agree(w.c, env, s.act.regs)
  {
    hide *;
    UnfoldSimple(st, w.c, n);
    IsScopeStmt(st);
    DoesSimpleRun(DoesAll(w.p), st, env, ShieldOf(w.c.hs), s.trace, fuel);
    ExprGrows(st.e, w.c, n + 2);
    StmtAtMeans(w, s, pos, st, n, env);
    GoodSimple(w.p, st, w.c.names.Keys, ShieldOf(w.c.hs));
    var a := EmitExpr(st.e, w.c, n + 2);
    op := if st.Assign? then Store(w.c.Slot(st.x), a.lvid) else Opassert(a.lvid);
    MakeCallGrows(a.code, [op], w.c.hs, n, a.n);
  }

  lemma StmtAtMeans(w: Site, s: State, pos: nat, st: Stmt, n: nat, env: Env)
    requires StmtAt(w, s, pos, st, n, env)
    ensures Start(w, s, pos, n) && Stands(w, pos, EmitStmt(st, w.c, n).code)
    ensures EmitStmt(st, w.c, n).n <= w.top && GoodStmt(w.p, st, w.c.names.Keys, ShieldOf(w.c.hs))
    ensures Agree(w.c, env, s.act.regs)
  {
    hide EmitStmt;
    hide GoodStmt;
    hide Start;
  }

  lemma GoodSimple(p: seq<Func>, st: Stmt, names: set<nat>, h: Shield)
    requires IsSimple(st) && GoodStmt(p, st, names, h)
    ensures st.Throw? ==> forall v :: Raised(h, st.atomid, v) != Leaked
    ensures GoodExpr(p, st.e, names) && (st.Assign? ==> st.x in names)
  {
    hide GoodExpr;
  }

  lemma SimpleSlow(m: Program, s: State, t: State, st: Stmt, env: Env, h: Shield, out: ExprOut, fuel: nat)
    requires Reaches(m, s, t) && SlowExpr(m, t, out, fuel)
    ensures SlowStmt(m, s, SimpleOut(st, env, h, out), fuel)
  {
    SlowAfter(m, s, t, out, fuel);
    hide Reaches;
    hide Goes;
  }

  lemma MakeCallGrows(body: Code, op: Code, hs: Stack, n: nat, last: nat)
    ensures MakeCall(body, op, hs, n, last).n == last + 1 && MakeCall(body, op, hs, n, last).lvid == n + 2
  {
  }

  lemma MakeSimpleMeans(head: Code, a: Emitted, op: Code, n: nat)
    ensures MakeSimple(head, a, op, n) == EmittedStmt(head + (a.code + op), n)
  {
  }

  lemma SimCallStmt(w: Site, s: State, pos: nat, st: Stmt, n: nat, env: Env, fuel: nat) returns (t: State)
    requires st.Assign? || st.Assert?
    requires StmtAt(w, s, pos, st, n, env)
    requires CallsBelow(w.p, w.m, fuel)
    ensures Reaches(w.m, s, t)
    ensures SlowStmt(w.m, s, RunStmt(DoesAll(w.p), Does(st), env, ShieldOf(w.c.hs), s.trace, fuel), fuel)
    ensures StmtDone(w, s, t, pos + |EmitStmt(st, w.c, n).code|, n,
                     RunStmt(DoesAll(w.p), Does(st), env, ShieldOf(w.c.hs), s.trace, fuel))
  {
    hide *;
    var op := CallStmtParts(w, s, pos, st, n, env, fuel);
    var a := EmitExpr(st.e, w.c, n + 2);
    var out := RunExpr(DoesAll(w.p), st.e, env, ShieldOf(w.c.hs), s.trace, fuel);
    var t0 := CallOpens(w, s, pos, n, a.code, [op], a.n);
    MovedKeeps(s, t0, n);
    AgreeSame(w.c, env, s, t0);
    OperandAt(w, t0, pos + 3, st.e, n + 2, env);
    t := SimExpr(w, t0, pos + 3, st.e, n + 2, env, fuel);
    ReachTrans(w.m, s, t0, t);
    SimpleSlow(w.m, s, t0, st, env, ShieldOf(w.c.hs), out, fuel);
    Operand(w, s, t0, t, pos + 3, st.e, n, n + 2, env, out);
    if out.Value? {
      var t1 := CallStmtDone(w, s, t, pos + 3 + |a.code|, st, op, a, n, env, out.v);
      ReachTrans(w.m, s, t, t1);
      t := t1;
    } else {
      SimpleStops(w, s, t0, t, pos, st, n, n + 2, env, ShieldOf(w.c.hs), out);
    }
  }

  lemma CallStmtDone(w: Site, s0: State, s: State, pos: nat, st: Stmt, op: Instr, a: Emitted, n: nat, env: Env, v: u64)
    returns (t: State)
    requires st.Assign? || st.Assert?
    requires op == (if st.Assign? then Store(w.c.Slot(st.x), a.lvid) else Opassert(a.lvid))
    requires Start(w, s, pos, a.n) && UpTo(w.Text(), pos) <= a.n && (st.Assign? ==> st.x in w.c.names)
    requires Stands(w, pos, [op] + ([ScopeEnd] + Dispatch(w.c.hs, a.n + 1)))
    requires Keeps(s0, s, n, {}) && Holds(s, a.lvid, v) && Agree(w.c, env, s.act.regs)
    ensures Reaches(w.m, s, t)
    ensures StmtDone(w, s0, t, pos + 2 + |Dispatch(w.c.hs, a.n + 1)|, n,
                     SimpleOut(st, env, ShieldOf(w.c.hs), Value(v, s.trace)))
  {
    hide Start;
    hide Stands;
    hide Dispatch;
    hide StmtDone;
    if st.Assign? {
      t := AssignDone(w, s0, s, pos, st.x, a.lvid, n, a.n, env, v);
    } else {
      t := AssertDone(w, s0, s, pos, a.lvid, n, a.n, env, v);
    }
  }

  lemma ScopeStmtParts(w: Site, s: State, pos: nat, st: Stmt, n: nat, env: Env, fuel: nat)
    requires st.Eval? || st.Observe? || st.Return? || st.Throw?
    requires StmtAt(w, s, pos, st, n, env)
    ensures var a := EmitExpr(st.e, w.c, n);
      && EmitStmt(st, w.c, n).code == [ScopeBegin] + (a.code + Operation(st, w.c, a))
      && n < a.n <= (if st.Return? then w.top - 1 else w.top)
    ensures var out := RunExpr(DoesAll(w.p), st.e, env, ShieldOf(w.c.hs), s.trace, fuel);
      && RunStmt(DoesAll(w.p), Does(st), env, ShieldOf(w.c.hs), s.trace, fuel)
        == SimpleOut(st, env, ShieldOf(w.c.hs), out)
    ensures st.Throw? ==> forall v :: Raised(ShieldOf(w.c.hs), st.atomid, v) != Leaked
    ensures GoodExpr(w.p, st.e, w.c.names.Keys)
    ensures Start(w, s, pos, n) && Stands(w, pos, EmitStmt(st, w.c, n).code) && Agree(w.c, env, s.act.regs)
  {
    hide *;
    UnfoldSimple(st, w.c, n);
    IsScopeStmt(st);
    DoesSimpleRun(DoesAll(w.p), st, env, ShieldOf(w.c.hs), s.trace, fuel);
    ExprGrows(st.e, w.c, n);
    StmtAtMeans(w, s, pos, st, n, env);
    GoodSimple(w.p, st, w.c.names.Keys, ShieldOf(w.c.hs));
    var a := EmitExpr(st.e, w.c, n);
    MakeSimpleMeans([ScopeBegin], a, Operation(st, w.c, a), if st.Return? then a.n + 1 else a.n);
  }

  lemma IsScopeStmt(st: Stmt)
    ensures IsSimple(st) <==> st.Assign? || st.Eval? || st.Observe? || st.Assert? || st.Return? || st.Throw?
  {
  }

  lemma SimScopeStmt(w: Site, s: State, pos: nat, st: Stmt, n: nat, env: Env, fuel: nat) returns (t: State)
    requires st.Eval? || st.Observe? || st.Return? || st.Throw?
    requires StmtAt(w, s, pos, st, n, env)
    requires CallsBelow(w.p, w.m, fuel)
    ensures Reaches(w.m, s, t)
    ensures SlowStmt(w.m, s, RunStmt(DoesAll(w.p), Does(st), env, ShieldOf(w.c.hs), s.trace, fuel), fuel)
    ensures StmtDone(w, s, t, pos + |EmitStmt(st, w.c, n).code|, n,
                     RunStmt(DoesAll(w.p), Does(st), env, ShieldOf(w.c.hs), s.trace, fuel))
  {
    hide *;
    ScopeStmtParts(w, s, pos, st, n, env, fuel);
    var a := EmitExpr(st.e, w.c, n);
    var out := RunExpr(DoesAll(w.p), st.e, env, ShieldOf(w.c.hs), s.trace, fuel);
    Split(w, pos, [ScopeBegin], a.code + Operation(st, w.c, a));
    Split(w, pos + 1, a.code, Operation(st, w.c, a));
    ScopeIdle(w, 0);
    var t0 := StartIdle(w, s, pos, n, [ScopeBegin], n);
    MovedKeeps(s, t0, n);
    AgreeSame(w.c, env, s, t0);
    OperandAt(w, t0, pos + 1, st.e, n, env);
    t := SimExpr(w, t0, pos + 1, st.e, n, env, fuel);
    ReachTrans(w.m, s, t0, t);
    SimpleSlow(w.m, s, t0, st, env, ShieldOf(w.c.hs), out, fuel);
    Operand(w, s, t0, t, pos + 1, st.e, n, n, env, out);
    if out.Value? {
      var t1 := ScopeStmtDone(w, s, t, pos + 1 + |a.code|, st, a, n, env, out.v);
      ReachTrans(w.m, s, t, t1);
      t := t1;
    } else {
      SimpleStops(w, s, t0, t, pos, st, n, n, env, ShieldOf(w.c.hs), out);
    }
  }

  lemma ScopeStmtDone(w: Site, s0: State, s: State, pos: nat, st: Stmt, a: Emitted, n: nat, env: Env, v: u64)
    returns (t: State)
    requires st.Eval? || st.Observe? || st.Return? || st.Throw?
    requires Start(w, s, pos, a.n) && n <= a.n <= (if st.Return? then w.top - 1 else w.top)
    requires Stands(w, pos, Operation(st, w.c, a))
    requires Keeps(s0, s, n, {}) && Holds(s, a.lvid, v) && Agree(w.c, env, s.act.regs)
    requires st.Throw? ==> Raised(ShieldOf(w.c.hs), st.atomid, v) != Leaked
    ensures Reaches(w.m, s, t)
    ensures StmtDone(w, s0, t, pos + |Operation(st, w.c, a)|, n,
                     SimpleOut(st, env, ShieldOf(w.c.hs), Value(v, s.trace)))
  {
    hide Start;
    hide Stands;
    hide StmtDone;
    hide Raised;
    match st
    case Eval(_) => t := EvalDone(w, s0, s, pos, n, a.n, env);
    case Observe(iid, _) => t := ObserveDone(w, s0, s, pos, a.lvid, iid, n, a.n, env, v);
    case Return(_) => t := ReturnDone(w, s0, s, pos, a.lvid, n, a.n, v);
    case Throw(atomid, _) => t := ThrowDone(w, s0, s, pos, a.lvid, atomid, n, a.n, env, v);
  }
}
