// What happens after a call: nothing when no error is unwinding, else the error reaches the handler chosen
// by the static search, or leaves the function.
module Dispatching {
  import opened Isa
  import opened Jumps
  import opened Machine
  import opened Handlers
  import opened Source
  import opened Layout
  import opened Running

  function ShieldOf(hs: Stack): Shield { Shield(hs.Types(), hs.HasAny()) }

  // The label of a handler: the closest one of that id when looking backward from 'pos'
  ghost predicate HandlerAt(code: Code, pos: nat, at: nat, id: nat, n: nat) {
    && at < pos <= |code| && code[at] == Label(id) && 0 < id <= n
    && forall i :: at < i < pos && code[i].Label? ==> code[i].id > id
  }

  // The handlers in scope stand at 'hp', and 'n' is the last id drawn
  ghost predicate Scene(m: Program, f: nat, pos: nat, n: nat, hs: Stack, hp: seq<nat>) {
    && Ordered(m) && f < |m.funcs| && pos <= |m.funcs[f]|
    && |hp| == hs.Size()
    && forall k :: 0 <= k < |hp| ==> HandlerAt(m.funcs[f], pos, hp[k], hs.At(k).target, n)
  }

  lemma UpToFrag(code: Code, pos: nat, frag: Code, k: nat, hi: nat)
    requires At(code, pos, frag) && k <= |frag|
    requires forall i :: 0 <= i < k && frag[i].Label? ==> frag[i].id <= hi
    ensures UpTo(code, pos + k) <= Max(UpTo(code, pos), hi)
  {
    if k > 0 {
      UpToFrag(code, pos, frag, k - 1, hi);
      assert code[pos + (k - 1)] == frag[k - 1];
    }
  }

  lemma SceneMoves(m: Program, f: nat, pos: nat, frag: Code, n: nat, hi: nat, n': nat, top: nat, hs: Stack,
                   hp: seq<nat>)
    requires Scene(m, f, pos, n, hs, hp) && At(m.funcs[f], pos, frag)
    requires Fits(frag, n, hi, top) && n <= n'
    ensures Scene(m, f, pos + |frag|, n', hs, hp)
    ensures UpTo(m.funcs[f], pos + |frag|) <= Max(UpTo(m.funcs[f], pos), hi)
  {
    var code := m.funcs[f];
    UpToFrag(code, pos, frag, |frag|, hi);
    forall k | 0 <= k < |hp|
      ensures HandlerAt(code, pos + |frag|, hp[k], hs.At(k).target, n')
    {
      assert HandlerAt(code, pos, hp[k], hs.At(k).target, n);
      forall i | hp[k] < i < pos + |frag| && code[i].Label?
        ensures code[i].id > hs.At(k).target
      {
        if i >= pos {
          assert code[pos + (i - pos)] == frag[i - pos];
        }
      }
    }
  }

  // How a run of the function is cut short
  ghost predicate Stopped(m: Program, s: State, t: State, f: nat, hs: Stack, hp: seq<nat>, n: nat, x: Exit) {
    match x
    case Caught(k, error) =>
      && k < |hp| && |hp| == hs.Size()
      && Ready(m, t, f, hp[k] + 1, false)
      && Keeps(s, t, n, {hs.At(k).target + 1})
      && (k < |hs.typed| ==> hs.At(k).target + 1 < |t.act.regs| && t.act.regs[hs.At(k).target + 1] == error)
    case Unwound(atomid, error) => Popped(s, t, t.retval, true) && t.error == error && t.errorType == atomid
    case _ => CutShort(m, t, x)
  }

  // A label is visited while an error is on its way
  predicate Lost(m: Program, s: State) { s.status == Running && s.unwinding && AtLabel(m, s) }

  predicate AtLabel(m: Program, s: State) {
    s.act.func < |m.funcs| && s.act.pc < |m.funcs[s.act.func]| && m.funcs[s.act.func][s.act.pc].Label?
  }

  // In this function or in one that it calls
  predicate CutShort(m: Program, t: State, x: Exit) {
    match x
    case Crashed(e) => t.status == Fault(e)
    case Timeout => t.status == Running
    case Leaked => Lost(m, t)
    case _ => true
  }

  lemma StoppedLater(m: Program, s: State, s1: State, t: State, f: nat, hs: Stack, hp: seq<nat>, n: nat, n1: nat,
                     x: Exit)
    requires Keeps(s, s1, n, {}) && Stopped(m, s1, t, f, hs, hp, n1, x) && n <= n1
    ensures Stopped(m, s, t, f, hs, hp, n, x)
  {
  }

  lemma ChainEntry(code: Code, pos: nat, hs: Stack, j: nat)
    requires !hs.IsEmpty() && At(code, pos, OnError(hs)) && j < hs.Size()
    ensures pos + j < |code|
    ensures code[pos + j] == Jmperrhandler(if j < |hs.typed| then hs.typed[j].atomid else 0, hs.At(j).target)
  {
    DispatchShape(hs, 0);
    assert code[pos + j] == OnError(hs)[j];
  }

  lemma HandlerStep(m: Program, s: State, f: nat, pos: nat, atomid: nat, id: nat)
    requires Ready(m, s, f, pos, true) && pos < |m.funcs[f]| && m.funcs[f][pos] == Jmperrhandler(atomid, id)
    requires id + 1 < |s.act.regs|
    ensures Reaches(m, s, Step(m, s))
    ensures Step(m, s) ==
      if atomid == s.errorType || atomid == 0 then
        JumpTo(m.funcs[f], s.(error := 0, unwinding := false),
               if atomid != 0 then s.act.regs[id + 1 := s.error] else s.act.regs, id)
      else s.(act := s.act.(pc := pos + 1))
    ensures UpTo(m.funcs[f], pos + 1) == UpTo(m.funcs[f], pos)
  {
    ReachStep(m, s);
  }

  lemma ChainHit(m: Program, s: State, f: nat, pos: nat, n: nat, hs: Stack, hp: seq<nat>, j: nat, regs: seq<u64>)
    requires Scene(m, f, pos, n, hs, hp) && !hs.IsEmpty() && At(m.funcs[f], pos, OnError(hs))
    requires Ready(m, s, f, pos + j, true) && j < hs.Size()
    ensures hp[j] < |m.funcs[f]|
    ensures JumpTo(m.funcs[f], s.(error := 0, unwinding := false), regs, hs.At(j).target)
         == s.(error := 0, unwinding := false,
               act := s.act.(pc := hp[j] + 1, upper := UpTo(m.funcs[f], hp[j] + 1), regs := regs))
  {
    var code := m.funcs[f];
    assert HandlerAt(code, pos, hp[j], hs.At(j).target, n);
    ChainEntry(code, pos, hs, j);
    ChainLabels(code, pos, hs, j);
    hide OnError;
    Backward(m, s.(error := 0, unwinding := false), f, regs, hs.At(j).target, hp[j]);
  }

  // Error types are positive: 0 stands for any error
  predicate ProperTypes(hs: Stack) { forall i :: 0 <= i < |hs.typed| ==> hs.typed[i].atomid > 0 }

  // The chain of error handlers, from its j-th entry to the one which was chosen
  lemma {:induction false} WalkChain(m: Program, s: State, f: nat, pos: nat, n: nat, hs: Stack, hp: seq<nat>, j: nat,
    top: nat) returns (t: State)
    requires Scene(m, f, pos, n, hs, hp) && !hs.IsEmpty() && At(m.funcs[f], pos, OnError(hs)) && ProperTypes(hs)
    requires FitsHandlers(hs, top) && top < |s.act.regs|
    requires Ready(m, s, f, pos + j, true)
    requires hs.Select(s.errorType).Some? && j <= hs.Select(s.errorType).value
    ensures Reaches(m, s, t) && t.trace == s.trace
    ensures Stopped(m, s, t, f, hs, hp, n, Caught(hs.Select(s.errorType).value, s.error))
    decreases hs.Size() - j
  {
    hide OnError;
    var k := hs.Select(s.errorType).value;
    ChainEntry(m.funcs[f], pos, hs, j);
    HandlerStep(m, s, f, pos + j, if j < |hs.typed| then hs.typed[j].atomid else 0, hs.At(j).target);
    t := Step(m, s);
    if j == k {
      var regs := if j < |hs.typed| then s.act.regs[hs.At(j).target + 1 := s.error] else s.act.regs;
      ChainHit(m, s, f, pos, n, hs, hp, j, regs);
    } else {
      assert hs.typed[j].atomid != s.errorType;
      var s1 := t;
      assert Ready(m, s1, f, pos + (j + 1), true);
      t := WalkChain(m, s1, f, pos, n, hs, hp, j + 1, top);
      ReachTrans(m, s, s1, t);
    }
  }

  lemma ChainLabels(code: Code, pos: nat, hs: Stack, j: nat)
    requires At(code, pos, OnError(hs)) && j <= |OnError(hs)|
    ensures forall i :: pos <= i < pos + j ==> !code[i].Label?
  {
    DispatchShape(hs, 0);
    forall i | pos <= i < pos + j
      ensures !code[i].Label?
    {
      assert code[pos + (i - pos)] == OnError(hs)[i - pos];
    }
  }

  // An error comes out of a call: it goes where a direct 'raise' of that type would have gone
  lemma DispatchError(m: Program, s: State, f: nat, pos: nat, id: nat, n: nat, hs: Stack, hp: seq<nat>,
    top: nat) returns (t: State)
    requires Scene(m, f, pos, n, hs, hp) && At(m.funcs[f], pos, Dispatch(hs, id)) && ProperTypes(hs)
    requires Ready(m, s, f, pos, true) && CanReturn(s) && FitsHandlers(hs, top) && top < |s.act.regs|
    ensures Reaches(m, s, t) && t.trace == s.trace
    ensures Stopped(m, s, t, f, hs, hp, n, Raised(ShieldOf(hs), s.errorType, s.error))
  {
    hide *;
    ReadyMeans(m, s, f, pos, true);
    DispatchStands(m.funcs[f], pos, hs, id);
    var s1 := Step(m, s);
    JzraiseStep(m, s, f, pos, id);
    ReturnKept(s, s1);
    AtomTypes(hs, s.errorType);
    if hs.IsEmpty() {
      t := UnhandledError(m, s1, f, pos + 1, hs);
      UnhandledStopped(m, s, s1, t, f, hs, hp, n);
    } else if hs.Select(s.errorType).None? {
      LostRaised(hs, s.errorType, s.error);
      DispatchShape(hs, id);
      LabelStands(m.funcs[f], pos, hs, id);
      t := WalkPast(m, s1, f, pos + 1, hs, id, 0, top);
      LostStopped(m, s, t, f, hs, hp, n);
    } else {
      SelectRaised(hs, s.errorType, s.error);
      ErrorScene(m, f, pos, id, n, hs, hp);
      t := WalkChain(m, s1, f, pos + 1, n, hs, hp, 0, top);
      SameStopped(m, s, s1, t, f, hs, hp, n, Raised(ShieldOf(hs), s.errorType, s.error));
    }
    ReachTrans(m, s, s1, t);
  }

  lemma ReadyMeans(m: Program, s: State, f: nat, pos: nat, u: bool)
    requires Ready(m, s, f, pos, u)
    ensures f < |m.funcs|
  {
  }

  lemma ReturnKept(s: State, s1: State)
    requires CanReturn(s) && s1.callers == s.callers
    ensures CanReturn(s1)
  {
  }

  lemma DispatchStands(code: Code, pos: nat, hs: Stack, id: nat)
    requires At(code, pos, Dispatch(hs, id))
    ensures At(code, pos, [Jzraise(id)]) && At(code, pos + 1, OnError(hs))
  {
    hide OnError;
    AtSplit(code, pos, [Jzraise(id)] + OnError(hs), [Label(id)]);
    AtSplit(code, pos, [Jzraise(id)], OnError(hs));
  }

  lemma UnhandledError(m: Program, s: State, f: nat, pos: nat, hs: Stack) returns (t: State)
    requires hs.IsEmpty() && Ready(m, s, f, pos, true) && At(m.funcs[f], pos, OnError(hs)) && |s.act.regs| > 0
    requires CanReturn(s)
    ensures Reaches(m, s, t) && t.trace == s.trace && t.error == s.error && t.errorType == s.errorType
    ensures Popped(s, t, t.retval, true)
  {
    assert m.funcs[f][pos + 0] == OnError(hs)[0];
    ReachStep(m, s);
    t := Step(m, s);
  }

  lemma UnhandledStopped(m: Program, s: State, s1: State, t: State, f: nat, hs: Stack, hp: seq<nat>, n: nat)
    requires hs.IsEmpty() && s1.callers == s.callers && Popped(s1, t, t.retval, true)
    requires t.error == s.error && t.errorType == s.errorType
    ensures Stopped(m, s, t, f, hs, hp, n, Raised(ShieldOf(hs), s.errorType, s.error))
  {
  }

  lemma SelectRaised(hs: Stack, atomid: nat, error: u64)
    requires !hs.IsEmpty() && hs.Select(atomid).Some?
    ensures Raised(ShieldOf(hs), atomid, error) == Caught(hs.Select(atomid).value, error)
  {
  }

  lemma LostRaised(hs: Stack, atomid: nat, error: u64)
    requires !hs.IsEmpty() && hs.Select(atomid).None?
    ensures Raised(ShieldOf(hs), atomid, error) == Leaked
  {
  }

  lemma LabelStands(code: Code, pos: nat, hs: Stack, id: nat)
    requires At(code, pos, Dispatch(hs, id))
    ensures At(code, pos + 1, OnError(hs)) && At(code, pos + 1 + |OnError(hs)|, [Label(id)])
  {
    hide OnError;
    assert Dispatch(hs, id) == [Jzraise(id)] + (OnError(hs) + [Label(id)]);
    AtSplit(code, pos, [Jzraise(id)], OnError(hs) + [Label(id)]);
    AtSplit(code, pos + 1, OnError(hs), [Label(id)]);
  }

  lemma LostStopped(m: Program, s: State, t: State, f: nat, hs: Stack, hp: seq<nat>, n: nat)
    requires Lost(m, t)
    ensures Stopped(m, s, t, f, hs, hp, n, Leaked)
  {
  }

  // No handler of the chain is for the error: the label after it is visited
  lemma {:induction false} WalkPast(m: Program, s: State, f: nat, pos: nat, hs: Stack, id: nat, j: nat, top: nat)
    returns (t: State)
    requires f < |m.funcs| && !hs.IsEmpty() && At(m.funcs[f], pos, OnError(hs)) && |OnError(hs)| == hs.Size()
    requires At(m.funcs[f], pos + hs.Size(), [Label(id)])
    requires ProperTypes(hs) && FitsHandlers(hs, top) && top < |s.act.regs|
    requires Ready(m, s, f, pos + j, true) && j <= hs.Size() && hs.Select(s.errorType).None?
    ensures Reaches(m, s, t) && Lost(m, t) && t.trace == s.trace
    decreases hs.Size() - j
  {
    hide OnError;
    if j == hs.Size() {
      t := s;
      ReachSelf(m, s);
      LabelIsThere(m, s, f, pos + j, id);
    } else {
      ChainEntry(m.funcs[f], pos, hs, j);
      HandlerStep(m, s, f, pos + j, if j < |hs.typed| then hs.typed[j].atomid else 0, hs.At(j).target);
      NotForIt(hs, s.errorType, j);
      var s1 := Step(m, s);
      assert Ready(m, s1, f, pos + (j + 1), true);
      t := WalkPast(m, s1, f, pos, hs, id, j + 1, top);
      ReachTrans(m, s, s1, t);
    }
  }

  lemma LabelIsThere(m: Program, s: State, f: nat, pos: nat, id: nat)
    requires Ready(m, s, f, pos, true) && At(m.funcs[f], pos, [Label(id)])
    ensures Lost(m, s)
  {
    assert m.funcs[f][pos + 0] == [Label(id)][0];
  }

  lemma NotForIt(hs: Stack, atomid: nat, j: nat)
    requires hs.Select(atomid).None? && j < hs.Size() && ProperTypes(hs)
    ensures j < |hs.typed| && hs.typed[j].atomid != atomid && hs.typed[j].atomid != 0
  {
  }

  lemma ErrorScene(m: Program, f: nat, pos: nat, id: nat, n: nat, hs: Stack, hp: seq<nat>)
    requires Scene(m, f, pos, n, hs, hp) && At(m.funcs[f], pos, [Jzraise(id)])
    ensures Scene(m, f, pos + 1, n, hs, hp)
  {
    assert Fits([Jzraise(id)], n, n, 0);
    SceneMoves(m, f, pos, [Jzraise(id)], n, n, n, 0, hs, hp);
  }

  lemma SameStopped(m: Program, s: State, s1: State, t: State, f: nat, hs: Stack, hp: seq<nat>, n: nat, x: Exit)
    requires Stopped(m, s1, t, f, hs, hp, n, x) && s1 == s.(act := s1.act) && x.Caught?
    requires s1.act.func == s.act.func && s1.act.regs == s.act.regs
    ensures Stopped(m, s, t, f, hs, hp, n, x)
  {
  }

  lemma JzraiseStep(m: Program, s: State, f: nat, pos: nat, id: nat)
    requires Ready(m, s, f, pos, true) && At(m.funcs[f], pos, [Jzraise(id)]) && |s.act.regs| > 0
    ensures Step(m, s) == s.(act := s.act.(pc := pos + 1)) && Reaches(m, s, Step(m, s))
    ensures Ready(m, Step(m, s), f, pos + 1, true)
  {
    assert m.funcs[f][pos + 0] == [Jzraise(id)][0];
    ReachStep(m, s);
  }

  lemma AtomTypes(hs: Stack, atomid: nat)
    ensures hs.Select(atomid) == Choose(ShieldOf(hs).types, ShieldOf(hs).any, atomid)
    ensures hs.IsEmpty() <==> ShieldOf(hs).IsEmpty()
  {
  }

  // No error: the dispatch is skipped
  lemma DispatchNothing(m: Program, s: State, f: nat, pos: nat, id: nat, hs: Stack)
    returns (t: State)
    requires Ordered(m) && f < |m.funcs| && At(m.funcs[f], pos, Dispatch(hs, id)) && UpTo(m.funcs[f], pos) < id
    requires Ready(m, s, f, pos, false) && |s.act.regs| > 0
    ensures Reaches(m, s, t) && Ready(m, t, f, pos + |Dispatch(hs, id)|, false)
    ensures t == s.(act := t.act) && t.act.regs == s.act.regs && t.act.func == s.act.func
  {
    var code := m.funcs[f];
    var frag := Dispatch(hs, id);
    DispatchShape(hs, id);
    var last := |frag| - 1;
    assert code[pos + 0] == frag[0];
    assert code[pos + last] == frag[last];
    forall i | 0 <= i < last
      ensures !frag[i].Label?
    {
      if i > 0 {
        assert frag[i] == OnError(hs)[i - 1];
      }
    }
    UpToFrag(code, pos, frag, last, 0);
    ReachStep(m, s);
    t := Forward(m, s, f, s.act.regs, id, pos + last, pos + last + 1);
    assert Step(m, s) == JumpTo(code, s, s.act.regs, id);
    ReachTrans(m, s, Step(m, s), t);
  }
}
