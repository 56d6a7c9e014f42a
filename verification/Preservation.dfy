// Whole programs: the machine running the emitted code does what the source program means.
module Preservation {
  import opened Isa
  import opened Jumps
  import opened Machine
  import opened Handlers
  import opened Source
  import opened Emitter
  import opened Layout
  import opened Untidy
  import opened Running
  import opened Dispatching
  import opened Correspondence
  import opened Expressions
  import opened Simple
  import opened Statements

  // ---- the labels of a whole program ----

  lemma FuncOrdered(f: Func)
    ensures OrderedLabels(EmitFunc(f)) && PositiveLabels(EmitFunc(f))
  {
    var c := Ctx(Parameters(f.params), NO_HANDLER);
    ParametersPlaces(f.params);
    StmtFits(WholeBody(f), c, FirstId(f), EmitBody(f).n);
    hide EmitStmt;
  }

  // Every emitted sequence has positive and ordered labels: the counter of each activation is right at any time
  lemma ProgramOrdered(p: seq<Func>, m: Program)
    requires m.funcs == EmitAll(p)
    ensures Ordered(m)
  {
    forall f | 0 <= f < |m.funcs|
      ensures OrderedLabels(m.funcs[f]) && PositiveLabels(m.funcs[f])
    {
      FuncOrdered(p[f]);
    }
  }

  // ---- parameters ----

  lemma {:induction false} ParametersPlaces(ps: seq<nat>)
    ensures forall x :: x in Parameters(ps) <==> x in ps
    ensures forall x :: x in Parameters(ps) ==> 2 <= Parameters(ps)[x] <= |ps| + 1
    ensures forall x, y ::
      x in Parameters(ps) && y in Parameters(ps) && Parameters(ps)[x] == Parameters(ps)[y] ==> x == y
    decreases |ps|
  {
    if ps != [] {
      ParametersPlaces(ps[..|ps| - 1]);
      assert ps == ps[..|ps| - 1] + [ps[|ps| - 1]];
    }
  }

  lemma {:induction false} ParametersValues(params: seq<nat>, vs: seq<u64>, regs: seq<u64>)
    requires |params| == |vs| && |regs| >= |vs| + 2 && forall i :: 0 <= i < |vs| ==> regs[i + 2] == vs[i]
    ensures forall x :: x in Parameters(params) ==> x in Bind(params, vs) && Parameters(params)[x] < |regs|
    ensures forall x :: x in Parameters(params) ==> regs[Parameters(params)[x]] == Bind(params, vs)[x]
    decreases |params|
  {
    if params != [] {
      var k := |params| - 1;
      ParametersValues(params[..k], vs[..k], regs);
      assert regs[k + 2] == vs[k];
    }
  }

  // ---- functions ----

  function FuncSite(p: seq<Func>, m: Program, g: nat): Site
    requires g < |p|
  {
    Site(p, m, g, Ctx(Parameters(p[g].params), NO_HANDLER), [], EmitBody(p[g]).n)
  }

  lemma FuncStarts(p: seq<Func>, m: Program, g: nat, vs: seq<u64>, s: State)
    requires Entered(p, m, s, g, vs)
    ensures var w := FuncSite(p, m, g);
      Start(w, s, 1, FirstId(p[g])) && Agree(w.c, Bind(p[g].params, vs), s.act.regs)
  {
    hide GoodStmt;
    hide GoodProgram;
    hide EmitBody;
    hide Parameters;
    hide Bind;
    hide OrderedLabels;
    hide PositiveLabels;
    ParametersPlaces(p[g].params);
    ParametersValues(p[g].params, vs, s.act.regs);
    assert m.funcs[g] == EmitFunc(p[g]);
    assert UpTo(m.funcs[g], 1) == UpTo(m.funcs[g], 0);
  }

  lemma FuncStands(p: seq<Func>, m: Program, g: nat)
    requires m.funcs == EmitAll(p) && g < |p|
    ensures var w := FuncSite(p, m, g);
      && EmitStmt(WholeBody(p[g]), w.c, FirstId(p[g])) == EmitBody(p[g])
      && Stands(w, 1, EmitBody(p[g]).code) && EmitBody(p[g]).n <= w.top
  {
    hide EmitStmt;
    var w := FuncSite(p, m, g);
    var head := [Stacksize(EmitBody(p[g]).n + 1)];
    assert m.funcs[g] == EmitFunc(p[g]);
    assert Stands(w, 0, head + EmitBody(p[g]).code);
    Split(w, 0, head, EmitBody(p[g]).code);
  }

  lemma FuncGood(p: seq<Func>, m: Program, g: nat)
    requires GoodProgram(p) && g < |p|
    ensures var w := FuncSite(p, m, g);
      GoodStmt(w.p, WholeBody(p[g]), w.c.names.Keys, ShieldOf(w.c.hs)) && ShieldOf(w.c.hs) == BARE
  {
    hide EmitBody;
    hide WholeBody;
    var w := FuncSite(p, m, g);
    ParametersPlaces(p[g].params);
    BareShield();
    assert w.c.names.Keys == (set x | x in p[g].params);
    GoodSame(p, WholeBody(p[g]), (set x | x in p[g].params), w.c.names.Keys, BARE, ShieldOf(w.c.hs));
  }

  lemma GoodSame(p: seq<Func>, st: Stmt, names: set<nat>, names': set<nat>, h: Shield, h': Shield)
    requires GoodStmt(p, st, names, h) && names == names' && h == h'
    ensures GoodStmt(p, st, names', h')
  {
  }

  lemma BareShield()
    ensures ShieldOf(NO_HANDLER) == BARE
  {
  }

  lemma WholeBodyReturns(q: seq<Func>, f: Func, env: Env, h: Shield, trace: seq<Event>, fuel: nat)
    ensures !RunStmt(q, Does(WholeBody(f)), env, h, trace, fuel).Normal?
  {
    var st := WholeBody(f);
    DoesBlockRun(q, st, env, h, trace, fuel);
    var o := RunStmt(q, Does(f.body), env, h, trace, fuel);
    if o.Normal? {
      DoesSimpleRun(q, st.b, o.env, h, o.trace, fuel);
    }
  }

  // What the code of a function does
  lemma UnfoldFunc(p: seq<Func>, g: nat, vs: seq<u64>, trace: seq<Event>, fuel: nat)
    ensures fuel == 0 ==> RunFunc(DoesAll(p), g, vs, trace, fuel) == StmtExit(Timeout, map[], trace)
    ensures fuel > 0 && g < |p| && |vs| == |p[g].params| ==>
      RunFunc(DoesAll(p), g, vs, trace, fuel)
      == RunStmt(DoesAll(p), Does(WholeBody(p[g])), Bind(p[g].params, vs), BARE, trace, fuel - 1)
  {
    hide RunStmt;
    if g < |p| {
      assert WholeBody(DoesAll(p)[g]) == Does(WholeBody(p[g]));
    }
  }

  lemma FuncAnswers(p: seq<Func>, m: Program, s: State, t: State, g: nat, pos: nat, n: nat, out: StmtOut)
    requires g < |p| && StmtDone(FuncSite(p, m, g), s, t, pos, n, out) && !out.Normal?
    ensures Answered(m, s, t, out)
  {
    hide EmitBody;
  }

  lemma EnteredMeans(p: seq<Func>, m: Program, s: State, g: nat, vs: seq<u64>)
    requires Entered(p, m, s, g, vs)
    ensures m.funcs == EmitAll(p) && g < |p| && |vs| == |p[g].params|
  {
    hide GoodProgram;
    hide EmitBody;
  }

  lemma NoTime(p: seq<Func>, m: Program, s: State, g: nat, vs: seq<u64>)
    requires Entered(p, m, s, g, vs)
    ensures Reaches(m, s, s) && Answered(m, s, s, StmtExit(Timeout, map[], s.trace))
    ensures SlowStmt(m, s, StmtExit(Timeout, map[], s.trace), -1)
  {
    hide EmitBody;
    ReachSelf(m, s);
    GoesNow(m, s);
    hide Reaches;
  }

  // A function which was just entered answers what its code does
  lemma SimFunc(p: seq<Func>, m: Program, g: nat, vs: seq<u64>, s: State, fuel: nat) returns (t: State)
    requires GoodProgram(p) && Entered(p, m, s, g, vs)
    requires fuel > 0 ==> CallsBelow(p, m, fuel - 1)
    ensures SlowStmt(m, s, RunFunc(DoesAll(p), g, vs, s.trace, fuel), fuel - 1)
    ensures Reaches(m, s, t) && Answered(m, s, t, RunFunc(DoesAll(p), g, vs, s.trace, fuel))
  {
    hide *;
    EnteredMeans(p, m, s, g, vs);
    UnfoldFunc(p, g, vs, s.trace, fuel);
    if fuel == 0 {
      NoTime(p, m, s, g, vs);
      return s;
    }
    var w := FuncSite(p, m, g);
    FuncSiteIs(p, m, g);
    FuncStarts(p, m, g, vs, s);
    FuncStands(p, m, g);
    FuncGood(p, m, g);
    var env := Bind(p[g].params, vs);
    StmtIsAt(w, s, 1, WholeBody(p[g]), FirstId(p[g]), env);
    t := SimStmt(w, s, 1, WholeBody(p[g]), FirstId(p[g]), env, fuel - 1);
    WholeBodyReturns(DoesAll(p), p[g], env, BARE, s.trace, fuel - 1);
    FuncAnswers(p, m, s, t, g, 1 + |EmitBody(p[g]).code|, FirstId(p[g]), RunFunc(DoesAll(p), g, vs, s.trace, fuel));
  }

  lemma FuncSiteIs(p: seq<Func>, m: Program, g: nat)
    requires g < |p|
    ensures var w := FuncSite(p, m, g);
      w.p == p && w.m == m && w.f == g
  {
  }

  lemma {:induction false} AllCalls(p: seq<Func>, m: Program, fuel: nat)
    requires GoodProgram(p)
    ensures CallsBelow(p, m, fuel)
    decreases fuel
  {
    hide Entered;
    hide RunFunc;
    hide Answered;
    hide SlowStmt;
    forall k: nat, g, vs, s | k < fuel
      ensures CallWorks(p, m, g, vs, s, k)
    {
      if Entered(p, m, s, g, vs) {
        if k > 0 {
          AllCalls(p, m, k - 1);
        }
        var t := SimFunc(p, m, g, vs, s, k);
      }
    }
  }

  // ---- whole programs ----

  // The entry point has just been called
  function Boot(p: seq<Func>, m: Program, g: nat, vs: seq<u64>): State
    requires g < |p| && |vs| == |p[g].params| && EmitBody(p[g]).n > |vs|
  {
    State(Activation(g, 1, 0, Entry(EmitBody(p[g]).n + 1, m.fill, vs)), [], [], 0, false, 0, 0, [], Running)
  }

  // How the machine ends when the program means 'out'
  ghost predicate Finished(m: Program, t: State, out: StmtOut) {
    && t.trace == out.trace
    && match out
       case Returned(v, _) => t.status == Halted && !t.unwinding && t.retval == v
       case StmtExit(Unwound(atomid, error), _, _) =>
         t.status == Halted && t.unwinding && t.error == error && t.errorType == atomid
       case StmtExit(Crashed(e), _, _) => t.status == Fault(e)
       case StmtExit(Timeout, _, _) => t.status == Running
       case StmtExit(Leaked, _, _) => Lost(m, t)
       case _ => false
  }

  // The evaluation takes more time than given
  predicate TimedOut(out: StmtOut) { out.StmtExit? && out.exit == Timeout }

  // An error of a call is lost
  predicate Loses(out: StmtOut) { out.StmtExit? && out.exit == Leaked }

  lemma BootEntered(p: seq<Func>, m: Program, g: nat, vs: seq<u64>)
    requires GoodProgram(p) && m.funcs == EmitAll(p) && g < |p| && |vs| == |p[g].params|
    ensures EmitBody(p[g]).n > |vs|
    ensures Entered(p, m, Boot(p, m, g, vs), g, vs)
  {
    ProgramOrdered(p, m);
    BodyGrows(p[g]);
    hide EmitBody;
    hide GoodProgram;
    hide OrderedLabels;
    hide PositiveLabels;
    assert m.funcs[g] == EmitFunc(p[g]);
    assert UpTo(m.funcs[g], 1) == UpTo(m.funcs[g], 0);
  }

  // For every well-formed program: the machine produces the events of what the code does in the same order, and ends
  // the same way. It is still running if the evaluation takes more time than given, and for more steps as more time is
  // given. When an error of a call is lost, the flag is still set at the label after that call
  lemma CodeDoes(p: seq<Func>, m: Program, g: nat, vs: seq<u64>, fuel: nat) returns (k: nat)
    requires GoodProgram(p) && m.funcs == EmitAll(p) && g < |p| && |vs| == |p[g].params|
    ensures EmitBody(p[g]).n > |vs|
    ensures Finished(m, StepN(m, Boot(p, m, g, vs), k), RunFunc(DoesAll(p), g, vs, [], fuel))
    ensures SlowStmt(m, Boot(p, m, g, vs), RunFunc(DoesAll(p), g, vs, [], fuel), fuel - 1)
  {
    BootEntered(p, m, g, vs);
    if fuel > 0 {
      AllCalls(p, m, fuel - 1);
    }
    hide Entered;
    hide RunFunc;
    hide GoodProgram;
    hide EmitBody;
    hide StepN;
    hide SlowStmt;
    var t := SimFunc(p, m, g, vs, Boot(p, m, g, vs), fuel);
    k :| StepN(m, Boot(p, m, g, vs), k) == t;
  }

  // A tidy program does what is written
  lemma MeaningPreserved(p: seq<Func>, m: Program, g: nat, vs: seq<u64>, fuel: nat) returns (k: nat)
    requires GoodProgram(p) && TidyProgram(p) && m.funcs == EmitAll(p) && g < |p| && |vs| == |p[g].params|
    ensures EmitBody(p[g]).n > |vs|
    ensures Finished(m, StepN(m, Boot(p, m, g, vs), k), RunFunc(p, g, vs, [], fuel))
  {
    TidyProgramDoes(p);
    hide *;
    k := CodeDoes(p, m, g, vs, fuel);
  }

  lemma {:induction false} StaysStopped(m: Program, s: State, k: nat)
    requires s.status != Running
    ensures StepN(m, s, k) == s
    decreases k
  {
    if k > 0 {
      StaysStopped(m, s, k - 1);
    }
  }

  lemma SameEnd(m: Program, s: State, j: nat, k: nat)
    requires StepN(m, s, j).status != Running && StepN(m, s, k).status != Running
    ensures StepN(m, s, j) == StepN(m, s, k)
  {
    hide *;
    if k <= j {
      StepAdd(m, s, k, j - k);
      StaysStopped(m, StepN(m, s, k), j - k);
    } else {
      StepAdd(m, s, j, k - j);
      StaysStopped(m, StepN(m, s, j), k - j);
    }
  }

  lemma StopsInTime(m: Program, s: State, out: StmtOut, fuel: nat, j: nat)
    requires SlowStmt(m, s, out, fuel - 1) && StepN(m, s, j).status != Running && fuel > 2 * j
    ensures !TimedOut(out)
  {
    hide StepN;
    if TimedOut(out) {
      var k: nat :| 2 * k >= fuel - 1 && StepN(m, s, k).status == Running;
      StepAdd(m, s, j, k - j);
      StaysStopped(m, StepN(m, s, j), k - j);
    }
  }

  // A run which ends has one meaning: with any time which is not too short, the code does what the machine has done
  lemma MeaningIsExact(p: seq<Func>, m: Program, g: nat, vs: seq<u64>, fuel: nat, j: nat)
    requires GoodProgram(p) && m.funcs == EmitAll(p) && g < |p| && |vs| == |p[g].params|
    requires EmitBody(p[g]).n > |vs| && StepN(m, Boot(p, m, g, vs), j).status != Running
    ensures fuel > 2 * j ==> !TimedOut(RunFunc(DoesAll(p), g, vs, [], fuel))
    ensures !TimedOut(RunFunc(DoesAll(p), g, vs, [], fuel)) && !Loses(RunFunc(DoesAll(p), g, vs, [], fuel)) ==>
      Finished(m, StepN(m, Boot(p, m, g, vs), j), RunFunc(DoesAll(p), g, vs, [], fuel))
  {
    hide *;
    var k := CodeDoes(p, m, g, vs, fuel);
    var s := Boot(p, m, g, vs);
    var out := RunFunc(DoesAll(p), g, vs, [], fuel);
    if fuel > 2 * j {
      StopsInTime(m, s, out, fuel, j);
    }
    if !TimedOut(out) && !Loses(out) {
      FinishedStops(m, StepN(m, s, k), out);
      SameEnd(m, s, j, k);
    }
  }

  lemma FinishedStops(m: Program, t: State, out: StmtOut)
    requires Finished(m, t, out)
    ensures TimedOut(out) || Loses(out) <==> t.status == Running
  {
  }

  // The machine never stops if and only if what the code does never ends
  lemma NeverStops(p: seq<Func>, m: Program, g: nat, vs: seq<u64>)
    requires GoodProgram(p) && m.funcs == EmitAll(p) && g < |p| && |vs| == |p[g].params|
    requires forall fuel: nat :: !Loses(RunFunc(DoesAll(p), g, vs, [], fuel))
    ensures EmitBody(p[g]).n > |vs|
    ensures (forall k: nat :: StepN(m, Boot(p, m, g, vs), k).status == Running)
       <==> (forall fuel: nat :: TimedOut(RunFunc(DoesAll(p), g, vs, [], fuel)))
  {
    hide *;
    BootEntered(p, m, g, vs);
    var s := Boot(p, m, g, vs);
    if k: nat :| StepN(m, s, k).status != Running {
      MeaningIsExact(p, m, g, vs, 2 * k + 1, k);
    }
    if fuel: nat :| !TimedOut(RunFunc(DoesAll(p), g, vs, [], fuel)) {
      var k := CodeDoes(p, m, g, vs, fuel);
      FinishedStops(m, StepN(m, s, k), RunFunc(DoesAll(p), g, vs, [], fuel));
    }
  }
}
