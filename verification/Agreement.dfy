// The handler chosen by the analyser for a direct 'raise' is the one an error coming out of a call reaches.
module Agreement {
  import opened Isa
  import opened Jumps
  import opened Machine
  import opened Handlers
  import opened Source
  import opened Emitter
  import opened Layout
  import opened Running
  import opened Dispatching

  // About to raise directly an error of the type 'atomid'
  ghost predicate Raises(m: Program, s: State, f: nat, pos: nat, c: Ctx, atomid: nat, error: u64) {
    && Ready(m, s, f, pos, false) && pos < |m.funcs[f]|
    && m.funcs[f][pos].Raise?
    && m.funcs[f][pos] == Raise(m.funcs[f][pos].lvid, c.RaiseTarget(atomid), atomid)
    && m.funcs[f][pos].lvid < |s.act.regs| && s.act.regs[m.funcs[f][pos].lvid] == error
  }

  // The same error has just come out of a call
  ghost predicate Returns(m: Program, s: State, f: nat, pos: nat, c: Ctx, id: nat, atomid: nat, error: u64) {
    && Ready(m, s, f, pos, true) && At(m.funcs[f], pos, Dispatch(c.hs, id))
    && s.errorType == atomid && s.error == error
  }

  // At the first instruction of the k-th handler
  ghost predicate InHandler(m: Program, t: State, f: nat, hs: Stack, hp: seq<nat>, k: nat, error: u64) {
    && k < |hp| && |hp| == hs.Size()
    && Ready(m, t, f, hp[k] + 1, false)
    && (k < |hs.typed| ==> hs.At(k).target + 1 < |t.act.regs| && t.act.regs[hs.At(k).target + 1] == error)
  }

  // The k-th handler is the first of that very type, or the handler of any error when no other fits
  ghost predicate Chosen(c: Ctx, atomid: nat, k: nat) {
    && k < c.hs.Size() && c.RaiseTarget(atomid) == c.hs.At(k).target
    && (k == |c.hs.typed| ==> forall i :: 0 <= i < k ==> c.hs.typed[i].atomid != atomid)
    && (k < |c.hs.typed| ==> c.hs.typed[k].atomid == atomid && forall i :: 0 <= i < k ==>
        c.hs.typed[i].atomid != atomid)
  }

  lemma StaticChoice(m: Program, s: State, f: nat, pos: nat, c: Ctx, atomid: nat, error: u64, n: nat, hp: seq<nat>,
                     top: nat)
    requires Raises(m, s, f, pos, c, atomid, error) && Scene(m, f, pos, n, c.hs, hp)
    requires FitsHandlers(c.hs, top) && top < |s.act.regs| && c.hs.Select(atomid).Some?
    ensures InHandler(m, Step(m, s), f, c.hs, hp, c.hs.Select(atomid).value, error)
  {
    var k := c.hs.Select(atomid).value;
    var id := c.hs.At(k).target;
    assert HandlerAt(m.funcs[f], pos, hp[k], id, n);
    hide UpTo;
    hide OrderedLabels;
    Backward(m, s.(error := error, errorType := atomid), f, s.act.regs[id + 1 := error], id, hp[k]);
  }

  // Each with its own place in the function and its own state: both errors enter the same handler.
  lemma HandlersAgree(m: Program, f: nat, c: Ctx, hp: seq<nat>, top: nat, atomid: nat, error: u64,
                      s: State, pos: nat, n: nat, s': State, pos': nat, n': nat, id: nat) returns (t': State, k: nat)
    requires Raises(m, s, f, pos, c, atomid, error) && Scene(m, f, pos, n, c.hs, hp)
    requires Returns(m, s', f, pos', c, id, atomid, error) && Scene(m, f, pos', n', c.hs, hp)
    requires ProperTypes(c.hs) && FitsHandlers(c.hs, top) && top < |s.act.regs| && top < |s'.act.regs|
    requires c.hs.Select(atomid).Some? && CanReturn(s')
    ensures Reaches(m, s', t')
    ensures Chosen(c, atomid, k)
    ensures InHandler(m, Step(m, s), f, c.hs, hp, k, error) && InHandler(m, t', f, c.hs, hp, k, error)
  {
    StaticChoice(m, s, f, pos, c, atomid, error, n, hp, top);
    SelectIsRaised(c.hs, atomid, error);
    t' := DispatchError(m, s', f, pos', id, n', c.hs, hp, top);
    ChoiceIsFirst(c, atomid);
    hide Stack.Select;
    hide Dispatch;
    hide HandlerAt;
    hide OrderedLabels;
    hide UpTo;
    k := c.hs.Select(atomid).value;
  }

  lemma SelectIsRaised(hs: Stack, atomid: nat, error: u64)
    requires hs.Select(atomid).Some?
    ensures Raised(ShieldOf(hs), atomid, error) == Caught(hs.Select(atomid).value, error)
  {
  }

  lemma ChoiceIsFirst(c: Ctx, atomid: nat)
    requires c.hs.Select(atomid).Some?
    ensures Chosen(c, atomid, c.hs.Select(atomid).value)
  {
  }
}
