// Jumps of the emitted code: they reach their label, and what lies between is skipped. A fragment emitted from a
// counter has its labels between this counter and the next one, so that a jump forward to a fresh id crosses it, and
// a jump backward to an id drawn before finds the label behind it, as the machine searches from its greatest label.
module Branching {
  import opened Isa
  import opened Jumps
  import opened Machine
  import opened Handlers
  import opened Source
  import opened Emitter
  import opened Layout
  import opened Running
  import opened Dispatching
  import opened Correspondence

  predicate IsJump(i: Instr) { i.Jmp? || i.Jz? || i.Jnz? }

  predicate Taken(i: Instr, regs: seq<u64>)
    requires IsJump(i) && MaxLvid(i) < |regs|
  {
    match i
    case Jz(lvid, _, _) => regs[lvid] == 0
    case Jnz(lvid, _, _) => regs[lvid] != 0
    case _ => true
  }

  function AfterJump(i: Instr, regs: seq<u64>): seq<u64>
    requires IsJump(i) && MaxLvid(i) < |regs|
  {
    match i
    case Jz(_, result, _) => regs[result := 0]
    case Jnz(_, result, _) => regs[result := 1]
    case _ => regs
  }

  lemma JumpStep(m: Program, s: State, f: nat, pos: nat)
    requires Ready(m, s, f, pos, false) && pos < |m.funcs[f]| && IsJump(m.funcs[f][pos])
    requires MaxLvid(m.funcs[f][pos]) < |s.act.regs|
    ensures var i := m.funcs[f][pos];
      Step(m, s) == if Taken(i, s.act.regs) then JumpTo(m.funcs[f], s, AfterJump(i, s.act.regs), i.target)
                    else s.(act := s.act.(pc := pos + 1))
    ensures Reaches(m, s, Step(m, s))
  {
    ReachStep(m, s);
  }

  // The part of a fragment before the label 'id' has only smaller labels, and nothing happens from there on
  ghost predicate Lands(frag: Code, first: nat, id: nat) {
    && first <= |frag| && (first < |frag| ==> frag[first] == Label(id))
    && (forall i :: 0 <= i < first && frag[i].Label? ==> frag[i].id < id)
    && (forall i :: first <= i < |frag| ==> IsIdle(frag[i]))
  }

  lemma LandsBefore(a: Code, b: Code, first: nat, id: nat)
    requires Lands(b, first, id) && forall i :: 0 <= i < |a| && a[i].Label? ==> a[i].id < id
    ensures Lands(a + b, |a| + first, id)
  {
  }

  // A fragment closed by its label and some idle code
  lemma LandsClosed(a: Code, first: nat, gap: Code, id: nat, tail: Code) returns (r: nat)
    requires Lands(a, first, id)
    requires forall i :: 0 <= i < |gap| ==> !gap[i].Label?
    requires first < |a| ==> forall i :: 0 <= i < |gap| ==> IsIdle(gap[i])
    requires forall i :: 0 <= i < |tail| ==> IsIdle(tail[i])
    ensures Lands(a + (gap + ([Label(id)] + tail)), r, id) && first <= r < |a| + |gap| + 1
  {
    r := if first < |a| then first else |a| + |gap|;
  }

  lemma FirstIsReached(code: Code, pos: nat, skip: Code, first: nat, id: nat)
    requires At(code, pos, skip) && first < |skip| && Lands(skip, first, id) && UpTo(code, pos) < id
    ensures UpTo(code, pos + first) < id
  {
    UpToFrag(code, pos, skip, first, id - 1);
  }

  lemma IdleTail(w: Site, pos: nat, skip: Code, first: nat, id: nat, size: nat)
    requires Stands(w, pos, skip) && first < |skip| && Lands(skip, first, id)
    requires w.top < size && forall i :: 0 <= i < |skip| ==> MaxLvid(skip[i]) <= w.top
    ensures Idle(w.m.funcs[w.f], pos + first, pos + |skip|, size)
  {
    forall i | pos + first <= i < pos + |skip|
      ensures IsIdle(w.m.funcs[w.f][i]) && MaxLvid(w.m.funcs[w.f][i]) < size
    {
      Reads(w, pos, skip, i - pos);
    }
  }

  // The jump is taken: the run goes on after the fragment
  lemma JumpRun(w: Site, s: State, pos: nat, skip: Code, first: nat, id: nat) returns (t: State)
    requires Ordered(w.m) && Stands(w, pos, skip) && 0 < first < |skip| && Lands(skip, first, id)
    requires Ready(w.m, s, w.f, pos, false) && w.top < |s.act.regs|
    requires forall i :: 0 <= i < |skip| ==> MaxLvid(skip[i]) <= w.top
    requires IsJump(skip[0]) && skip[0].target == id && Taken(skip[0], s.act.regs) && UpTo(w.Text(), pos) < id
    ensures Reaches(w.m, s, t) && Ready(w.m, t, w.f, pos + |skip|, false)
    ensures Moved(s, t, AfterJump(skip[0], s.act.regs))
  {
    Reads(w, pos, skip, 0);
    Reads(w, pos, skip, first);
    JumpStep(w.m, s, w.f, pos);
    FirstIsReached(w.m.funcs[w.f], pos, skip, first, id);
    IdleTail(w, pos, skip, first, id, |s.act.regs|);
    t := Forward(w.m, s, w.f, AfterJump(skip[0], s.act.regs), id, pos + first, pos + |skip|);
    ReachTrans(w.m, s, Step(w.m, s), t);
  }

  lemma JumpAhead(w: Site, s: State, pos: nat, n: nat, skip: Code, first: nat, id: nat, n': nat) returns (t: State)
    requires Start(w, s, pos, n) && Stands(w, pos, skip) && 0 < first < |skip| && Lands(skip, first, id)
    requires IsJump(skip[0]) && skip[0].target == id && MaxLvid(skip[0]) <= w.top && Taken(skip[0], s.act.regs)
    requires UpTo(w.Text(), pos) < id && Fits(skip, n, id, w.top) && n <= n' && id <= n' + 1
    ensures Reaches(w.m, s, t) && Start(w, t, pos + |skip|, n')
    ensures UpTo(w.Text(), pos + |skip|) <= id
    ensures Moved(s, t, AfterJump(skip[0], s.act.regs))
  {
    t := JumpRun(w, s, pos, skip, first, id);
    StartMoves(w, s, t, pos, n, skip, id, n');
  }

  // The jump is not taken
  lemma JumpPassed(w: Site, s: State, pos: nat, n: nat, jump: Instr) returns (t: State)
    requires Start(w, s, pos, n) && Stands(w, pos, [jump]) && IsJump(jump) && MaxLvid(jump) <= w.top
    requires !Taken(jump, s.act.regs)
    ensures Reaches(w.m, s, t) && Start(w, t, pos + 1, n) && Moved(s, t, s.act.regs)
    ensures UpTo(w.Text(), pos + 1) <= UpTo(w.Text(), pos)
  {
    Reads(w, pos, [jump], 0);
    JumpStep(w.m, s, w.f, pos);
    t := Step(w.m, s);
    UpToFrag(w.m.funcs[w.f], pos, [jump], 1, 0);
    FlatFits([jump], n, w.top);
    StartMoves(w, s, t, pos, n, [jump], n, n);
  }
}
