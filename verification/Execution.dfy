// Running a whole program on the executor of the VM.
module Execution {
  import opened Isa
  import opened Machine
  import opened Source
  import opened Emitter
  import opened Untidy
  import opened Correspondence
  import opened Preservation
  import opened Executor

  datatype Ending = Ending(value: u64, unwinding: bool, error: u64, errorType: nat, trace: seq<Event>)

  // What the executor is left with when the program means 'out'
  predicate Reflected(e: Ending, out: StmtOut) {
    match out
    case Returned(v, trace) => e.value == v && !e.unwinding && e.trace == trace
    case StmtExit(Unwound(atomid, error), _, trace) =>
      e.unwinding && e.error == error && e.errorType == atomid && e.trace == trace
    case _ => false
  }

  predicate Thrown(e: Error, out: StmtOut) { out.StmtExit? && out.exit == Crashed(e) }

  lemma HaltedMeans(m: Program, t: State, s: State, out: StmtOut)
    requires Finished(m, t, out) && s.callers == [] && t == Leave(s, t.retval)
    ensures Reflected(Ending(t.retval, s.unwinding, s.error, s.errorType, s.trace), out)
  {
  }

  lemma FaultMeans(m: Program, t: State, e: Error, out: StmtOut)
    requires Finished(m, t, out) && t.status == Fault(e)
    ensures Thrown(e, out)
  {
  }

  // The code emitted for a program, run by the executor from one of its functions: when the run ends, it ends the way
  // the code does, with the same value, error and events, as soon as the evaluation is given more time than 'limit';
  // this is what the program means when it is tidy
  method Execute(p: seq<Func>, m: Program, g: nat, vs: seq<u64>, fuel: nat)
    returns (r: Visited, ending: Ending, ghost limit: nat)
    requires GoodProgram(p) && m.funcs == EmitAll(p) && g < |p| && |vs| == |p[g].params|
    ensures r != Went
    ensures TidyProgram(p) ==> DoesAll(p) == p
    ensures r == Left ==> forall f: nat ::
      var out := RunFunc(DoesAll(p), g, vs, [], f);
      (f > limit ==> !TimedOut(out)) && (!TimedOut(out) && !Loses(out) ==> Reflected(ending, out))
    ensures r.Threw? ==> forall f: nat ::
      var out := RunFunc(DoesAll(p), g, vs, [], f);
      (f > limit ==> !TimedOut(out)) && (!TimedOut(out) && !Loses(out) ==> Thrown(r.e, out))
  {
    TidyProgramDoes(p);
    hide TidyProgram;
    hide GoodProgram;
    hide RunFunc;
    hide RunStmt;
    hide EmitBody;
    hide StepN;
    hide Leave;
    BootEntered(p, m, g, vs);
    var executor := new Executor(m, g, Entry(EmitBody(p[g]).n + 1, m.fill, vs));
    ghost var boot := Boot(p, m, g, vs);
    ghost var steps, last;
    var left;
    r, left, steps, last := executor.Each(fuel);
    limit := 2 * steps;
    ending := Ending(executor.retval, executor.unwindRaisedError, executor.raisedError, executor.raisedErrorAtomid,
                     executor.trace);
    ghost var t := StepN(m, boot, steps);
    if r == Left {
      LeaveEnds(last, executor.retval);
    }
    if r != Exhausted {
      forall f: nat
        ensures f > limit ==> !TimedOut(RunFunc(DoesAll(p), g, vs, [], f))
        ensures r == Left ==> var out := RunFunc(DoesAll(p), g, vs, [], f);
          !TimedOut(out) && !Loses(out) ==> Reflected(ending, out)
        ensures r.Threw? ==> var out := RunFunc(DoesAll(p), g, vs, [], f);
          !TimedOut(out) && !Loses(out) ==> Thrown(r.e, out)
      {
        var out := RunFunc(DoesAll(p), g, vs, [], f);
        MeaningIsExact(p, m, g, vs, f, steps);
        if !TimedOut(out) && !Loses(out) {
          if r == Left {
            HaltedMeans(m, t, last, out);
          } else {
            FaultMeans(m, t, r.e, out);
          }
        }
      }
    }
  }

  lemma LeaveEnds(s: State, value: u64)
    requires s.callers == []
    ensures Leave(s, value).status == Halted && Leave(s, value).retval == value
  {
  }
}
