// Renumbering of the registers and labels of a sequence, to make room for new ones.
module Renumber {
  import opened Isa
  import opened Jumps
  import opened Machine

  function Shift(id: nat, inc: nat, greaterThan: nat): nat { if id > greaterThan then id + inc else id }

  // Each instruction tells which of its operands are renumbered: 'store' forgets its source
  function Renumbered(i: Instr, inc: nat, g: nat): (r: Instr)
    ensures r.Label? <==> i.Label?
    ensures i.Label? ==> r.id == Shift(i.id, inc, g)
  {
    match i
    case Stacksize(add) => Stacksize(add + inc)
    case Stackalloc(lvid) => Stackalloc(Shift(lvid, inc, g))
    case StoreConst(lvid, value) => StoreConst(Shift(lvid, inc, g), value)
    case Store(lvid, source) => Store(Shift(lvid, inc, g), source)
    case Binary(op, lvid, lhs, rhs) => Binary(op, Shift(lvid, inc, g), Shift(lhs, inc, g), Shift(rhs, inc, g))
    case Negation(lvid, lhs) => Negation(Shift(lvid, inc, g), Shift(lhs, inc, g))
    case Fieldget(lvid, self, field) => Fieldget(Shift(lvid, inc, g), Shift(self, inc, g), field)
    case Opassert(lvid) => Opassert(Shift(lvid, inc, g))
    case Push(lvid) => Push(Shift(lvid, inc, g))
    case Call(lvid, func) => Call(Shift(lvid, inc, g), Shift(func, inc, g))
    case Ret(lvid) => Ret(Shift(lvid, inc, g))
    case Label(id) => Label(Shift(id, inc, g))
    case Jmp(target) => Jmp(Shift(target, inc, g))
    case Jz(lvid, result, target) => Jz(Shift(lvid, inc, g), Shift(result, inc, g), Shift(target, inc, g))
    case Jnz(lvid, result, target) => Jnz(Shift(lvid, inc, g), Shift(result, inc, g), Shift(target, inc, g))
    case Raise(lvid, target, atomid) => Raise(Shift(lvid, inc, g), Shift(target, inc, g), atomid)
    case Jzraise(target) => Jzraise(Shift(target, inc, g))
    case Jmperrhandler(atomid, target) => Jmperrhandler(atomid, Shift(target, inc, g))
    case _ => i
  }

  // The end of the block which contains the instruction at 'from', 'depth' nested blocks being open
  function BlockEnd(code: Code, from: nat, depth: nat): (r: nat)
    requires from <= |code|
    ensures from <= r <= |code| && (r < |code| ==> code[r].ScopeEnd?)
    decreases |code| - from
  {
    if from == |code| || (code[from].ScopeEnd? && depth == 0) then from
    else if code[from].ScopeEnd? then BlockEnd(code, from + 1, depth - 1)
    else if code[from].ScopeBegin? then BlockEnd(code, from + 1, depth + 1)
    else BlockEnd(code, from + 1, depth)
  }

  // The blocks which begin without ending, less the ones which end without beginning
  function Unclosed(code: Code): int {
    if code == [] then 0
    else Unclosed(code[1..]) + if code[0].ScopeBegin? then 1 else if code[0].ScopeEnd? then -1 else 0
  }

  // The end of a block is the first one which has no beginning after 'from', the 'depth' blocks left apart
  lemma {:induction false} BlockEndMatches(code: Code, from: nat, depth: nat)
    requires from <= |code|
    ensures var r := BlockEnd(code, from, depth);
      && (forall k :: from <= k < r && code[k].ScopeEnd? ==> depth + Unclosed(code[from..k]) > 0)
      && (r < |code| ==> code[r].ScopeEnd? && depth + Unclosed(code[from..r]) == 0)
    decreases |code| - from
  {
    if from < |code| && !(code[from].ScopeEnd? && depth == 0) {
      var rest := if code[from].ScopeEnd? then depth - 1 else if code[from].ScopeBegin? then depth + 1 else depth;
      BlockEndMatches(code, from + 1, rest);
      forall k | from < k <= |code|
        ensures depth + Unclosed(code[from..k]) == rest + Unclosed(code[from + 1..k])
      {
        assert code[from..k][1..] == code[from + 1..k];
      }
    }
  }

  // From 'offset' to the end of its block
  function RenumberedFrom(code: Code, inc: nat, g: nat, offset: nat): (r: Code)
    requires offset <= |code|
    ensures |r| == |code|
    ensures forall i :: 0 <= i < |r| ==>
      r[i] == if offset <= i < BlockEnd(code, offset, 0) then Renumbered(code[i], inc, g) else code[i]
  {
    seq(|code|, i requires 0 <= i < |code| =>
      if offset <= i < BlockEnd(code, offset, 0) then Renumbered(code[i], inc, g) else code[i])
  }

  class Sequence {
    var body: Code

    constructor (code: Code)
      ensures body == code
    {
      body := code;
    }

    method IncreaseAllLVID(inc: nat, greaterThan: nat, offset: nat)
      requires inc > 0 && offset <= |body|
      modifies this
      ensures body == RenumberedFrom(old(body), inc, greaterThan, offset)
    {
      ghost var last := BlockEnd(body, offset, 0);
      var cursor, depth := offset, 0;
      while cursor < |body|
        invariant offset <= cursor <= last <= |body| == |old(body)|
        invariant last == BlockEnd(old(body), cursor, depth)
        invariant forall i :: 0 <= i < |body| ==>
          body[i] == if offset <= i < cursor then Renumbered(old(body)[i], inc, greaterThan) else old(body)[i]
        decreases |body| - cursor
      {
        match body[cursor] {
          case ScopeBegin => depth := depth + 1;
          case ScopeEnd =>
            if depth == 0 {
              break;
            }
            depth := depth - 1;
          case i => body := body[cursor := Renumbered(i, inc, greaterThan)];
        }
        cursor := cursor + 1;
      }
    }
  }

  // ---- jumps ----

  function All(code: Code, inc: nat, g: nat): (r: Code)
    ensures |r| == |code|
    ensures forall i :: 0 <= i < |r| ==> r[i] == Renumbered(code[i], inc, g)
  {
    seq(|code|, i requires 0 <= i < |code| => Renumbered(code[i], inc, g))
  }

  lemma ShiftGrows(a: nat, b: nat, inc: nat, g: nat)
    ensures Shift(a, inc, g) < Shift(b, inc, g) <==> a < b
    ensures Shift(a, inc, g) == Shift(b, inc, g) <==> a == b
  {
  }

  // Strictly increasing labels still are, and every jump reaches the instruction it reached before
  lemma JumpsKept(code: Code, inc: nat, g: nat, pc: nat, id: nat)
    requires StrictLabels(code) && PositiveLabels(code) && pc < |code| && !code[pc].Label?
    ensures StrictLabels(All(code, inc, g)) && PositiveLabels(All(code, inc, g))
    ensures Goto(All(code, inc, g), pc, UpTo(All(code, inc, g), pc), Shift(id, inc, g))
        == Goto(code, pc, UpTo(code, pc), id)
  {
    var code' := All(code, inc, g);
    forall i, j | 0 <= i < j < |code'| && code'[i].Label? && code'[j].Label?
      ensures code'[i].id < code'[j].id
    {
      ShiftGrows(code[i].id, code[j].id, inc, g);
    }
    GotoIsExact(code, pc, id);
    GotoIsExact(code', pc, Shift(id, inc, g));
    var r, r' := Goto(code, pc, UpTo(code, pc), id), Goto(code', pc, UpTo(code', pc), Shift(id, inc, g));
    hide Goto;
    if r.Some? {
      assert code'[r.value] == Label(Shift(id, inc, g));
    }
    if r'.Some? {
      ShiftGrows(code[r'.value].id, id, inc, g);
      assert code[r'.value] == Label(id);
    }
  }

  // ---- registers ----

  // Each register holds what it held before it was renumbered
  ghost predicate Shifted(regs: seq<u64>, regs': seq<u64>, inc: nat, g: nat) {
    && |regs'| == |regs| + inc
    && forall x :: 0 <= x < |regs| ==> regs'[Shift(x, inc, g)] == regs[x]
  }

  lemma ShiftedWrite(regs: seq<u64>, regs': seq<u64>, x: nat, v: u64, inc: nat, g: nat)
    requires Shifted(regs, regs', inc, g) && x < |regs|
    ensures Shift(x, inc, g) < |regs'|
    ensures Shifted(regs[x := v], regs'[Shift(x, inc, g) := v], inc, g)
  {
    forall y | 0 <= y < |regs|
      ensures regs'[Shift(x, inc, g) := v][Shift(y, inc, g)] == regs[x := v][y]
    {
      ShiftGrows(x, y, inc, g);
    }
  }

  // The machine goes on with the next instruction, with the same fault, events and parameters, and its registers are
  // those of the renumbered function
  ghost predicate Follows(t: State, t': State, inc: nat, g: nat) {
    && t'.status == t.status && t'.params == t.params && t'.trace == t.trace && t'.act.pc == t.act.pc
    && Shifted(t.act.regs, t'.act.regs, inc, g)
  }

  lemma WriteFollows(s: State, regs': seq<u64>, x: nat, v: u64, inc: nat, g: nat)
    requires Shifted(s.act.regs, regs', inc, g) && x < |s.act.regs|
    ensures Shift(x, inc, g) < |regs'|
    ensures Follows(Advance(s, s.act.regs[x := v]),
                    Advance(s.(act := s.act.(regs := regs')), regs'[Shift(x, inc, g) := v]), inc, g)
  {
    ShiftedWrite(s.act.regs, regs', x, v, inc, g);
    hide Shifted;
  }

  lemma ReadSame(regs: seq<u64>, regs': seq<u64>, x: nat, inc: nat, g: nat)
    requires Shifted(regs, regs', inc, g) && x < |regs|
    ensures Shift(x, inc, g) < |regs'| && regs'[Shift(x, inc, g)] == regs[x]
  {
  }

  lemma SameFollows(s: State, regs': seq<u64>, inc: nat, g: nat, e: Error)
    requires Shifted(s.act.regs, regs', inc, g)
    ensures var s' := s.(act := s.act.(regs := regs'));
      && Follows(Advance(s, s.act.regs), Advance(s', regs'), inc, g) && Follows(Fail(s, e), Fail(s', e), inc, g)
  {
    hide Shifted;
  }

  // The other instructions which always go on with the next one do to the renumbered registers what they did: the same
  // fault, the same events and parameters, the same values
  lemma PlainKept(p: Program, i: Instr, s: State, regs': seq<u64>, inc: nat, g: nat)
    requires IsPlain(i) && !i.Store? && MaxLvid(i) < |s.act.regs| && Shifted(s.act.regs, regs', inc, g)
    ensures IsPlain(Renumbered(i, inc, g)) && MaxLvid(Renumbered(i, inc, g)) < |regs'|
    ensures Follows(Plain(p, i, s), Plain(p, Renumbered(i, inc, g), s.(act := s.act.(regs := regs'))), inc, g)
  {
    hide Arith;
    hide Shifted;
    hide Shift;
    var regs := s.act.regs;
    SizesShifted(regs, regs', i, inc, g);
    match i
    case StoreConst(lvid, value) => WriteFollows(s, regs', lvid, value, inc, g);
    case Binary(op, lvid, lhs, rhs) =>
      ReadSame(regs, regs', lhs, inc, g);
      ReadSame(regs, regs', rhs, inc, g);
      var r := Arith(op, regs[lhs], regs[rhs]);
      if r.Some? {
        WriteFollows(s, regs', lvid, r.value, inc, g);
      } else {
        SameFollows(s, regs', inc, g, DivideByZero);
      }
    case Negation(lvid, lhs) =>
      ReadSame(regs, regs', lhs, inc, g);
      WriteFollows(s, regs', lvid, if regs[lhs] == 0 then 1 else 0, inc, g);
    case Fieldget(lvid, self, field) =>
      ReadSame(regs, regs', self, inc, g);
      if regs[self] == 0 || regs[self] !in p.heap || field >= |p.heap[regs[self]]| {
        SameFollows(s, regs', inc, g, UnknownPointer);
      } else {
        WriteFollows(s, regs', lvid, p.heap[regs[self]][field], inc, g);
      }
    case Opassert(lvid) =>
      ReadSame(regs, regs', lvid, inc, g);
      SameFollows(s, regs', inc, g, AssertFailed);
    case Push(lvid) =>
      ReadSame(regs, regs', lvid, inc, g);
      SameFollows(s.(params := s.params + [regs[lvid]]), regs', inc, g, AssertFailed);
    case Intrinsic(iid) =>
      SameFollows(s.(trace := s.trace + [Event(iid, s.params)], params := []), regs', inc, g, AssertFailed);
    case _ => SameFollows(s, regs', inc, g, AssertFailed);
  }

  lemma SizesShifted(regs: seq<u64>, regs': seq<u64>, i: Instr, inc: nat, g: nat)
    requires IsPlain(i) && MaxLvid(i) < |regs| && Shifted(regs, regs', inc, g)
    ensures IsPlain(Renumbered(i, inc, g))
    ensures !i.Store? ==> MaxLvid(Renumbered(i, inc, g)) < |regs'|
  {
  }

  // So do the conditional jumps, the returns and the raised errors with the registers they read and write
  lemma ControlKept(i: Instr, regs: seq<u64>, regs': seq<u64>, inc: nat, g: nat)
    requires MaxLvid(i) < |regs| && Shifted(regs, regs', inc, g)
    ensures var r := Renumbered(i, inc, g);
      match i
      case Jz(lvid, result, target) =>
        && r.Jz? && r.target == Shift(target, inc, g) && r.lvid < |regs'| && regs'[r.lvid] == regs[lvid]
        && r.result < |regs'| && Shifted(regs[result := 0], regs'[r.result := 0], inc, g)
      case Jnz(lvid, result, target) =>
        && r.Jnz? && r.target == Shift(target, inc, g) && r.lvid < |regs'| && regs'[r.lvid] == regs[lvid]
        && r.result < |regs'| && Shifted(regs[result := 1], regs'[r.result := 1], inc, g)
      case Jmp(target) => r == Jmp(Shift(target, inc, g))
      case Jzraise(target) => r == Jzraise(Shift(target, inc, g))
      case Ret(lvid) => r.Ret? && r.lvid < |regs'| && regs'[r.lvid] == regs[lvid]
      case Raise(lvid, target, atomid) =>
        && r.Raise? && r.target == Shift(target, inc, g) && r.atomid == atomid
        && r.lvid < |regs'| && regs'[r.lvid] == regs[lvid]
      case Jmperrhandler(atomid, target) => r == Jmperrhandler(atomid, Shift(target, inc, g))
      case _ => true
  {
    match i
    case Jz(lvid, result, _) => ShiftedWrite(regs, regs', result, 0, inc, g);
    case Jnz(lvid, result, _) => ShiftedWrite(regs, regs', result, 1, inc, g);
    case _ =>
  }

  // Only one register is not null
  function Spot(size: nat, x: nat): (r: seq<u64>)
    ensures |r| == size && forall i :: 0 <= i < size ==> r[i] == if i == x then 1 else 0
  {
    seq(size, i => if i == x then 1 else 0)
  }

  lemma SpotShifted(size: nat, x: nat, inc: nat, g: nat)
    ensures Shifted(Spot(size, x), Spot(size + inc, Shift(x, inc, g)), inc, g)
  {
    forall y | 0 <= y < size
      ensures Spot(size + inc, Shift(x, inc, g))[Shift(y, inc, g)] == Spot(size, x)[y]
    {
      ShiftGrows(x, y, inc, g);
    }
  }

  // The error is stored after the renumbered label
  ghost predicate FindsError(regs: seq<u64>, regs': seq<u64>, id: nat, error: u64, inc: nat, g: nat) {
    id + 1 < |regs| && Shifted(regs, regs', inc, g) ==>
      Shifted(regs[id + 1 := error], regs'[Shift(id, inc, g) + 1 := error], inc, g)
  }

  // An error which reaches a handler is found in the register of its variable, unless the limit falls between the label
  // and this register
  lemma HandlerSlotKept(id: nat, inc: nat, g: nat)
    requires inc > 0
    ensures (forall regs, regs', error :: FindsError(regs, regs', id, error, inc, g)) <==> id != g
  {
    if id == g {
      var regs, regs' := Spot(id + 2, id + 2), Spot(id + 2 + inc, id + 2 + inc);
      SpotShifted(id + 2, id + 2, inc, g);
      assert Shifted(regs, regs', inc, g);
      assert regs[id + 1 := 1][id + 1] == 1 && regs'[Shift(id, inc, g) + 1 := 1][Shift(id + 1, inc, g)] == 0;
      assert !FindsError(regs, regs', id, 1, inc, g);
    } else {
      forall regs: seq<u64>, regs': seq<u64>, error: u64
        ensures FindsError(regs, regs', id, error, inc, g)
      {
        ErrorFound(regs, regs', id, error, inc, g);
      }
    }
  }

  lemma ErrorFound(regs: seq<u64>, regs': seq<u64>, id: nat, error: u64, inc: nat, g: nat)
    requires id != g
    ensures FindsError(regs, regs', id, error, inc, g)
  {
    if id + 1 < |regs| && Shifted(regs, regs', inc, g) {
      assert Shift(id, inc, g) + 1 == Shift(id + 1, inc, g);
      forall x | 0 <= x < |regs|
        ensures regs'[Shift(id, inc, g) + 1 := error][Shift(x, inc, g)] == regs[id + 1 := error][x]
      {
        ShiftGrows(x, id + 1, inc, g);
      }
    }
  }

  // A renumbered copy reads what the copy read, whatever the registers hold, exactly when its source is not renumbered
  lemma CopyKept(lvid: nat, source: nat, inc: nat, g: nat)
    requires inc > 0
    ensures (forall regs, regs' :: source < |regs| && Shifted(regs, regs', inc, g) ==>
               regs'[Renumbered(Store(lvid, source), inc, g).source] == regs[source])
       <==> source <= g
  {
    if source > g {
      SpotShifted(source + 1, source, inc, g);
      assert Spot(source + 1 + inc, Shift(source, inc, g))[source] == 0;
      assert Shifted(Spot(source + 1, source), Spot(source + 1 + inc, Shift(source, inc, g)), inc, g);
    }
  }
}
