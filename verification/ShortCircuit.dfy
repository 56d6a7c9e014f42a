// Minimal evaluation of 'and' / 'or': the room reserved before the second operand is overwritten by a jump once
// the first operand is typed.
module ShortCircuit {
  import opened Isa
  import opened Jumps
  import opened Machine
  import opened Handlers
  import opened Source
  import opened Emitter
  import opened Strictness

  // ---- the rewriting ----

  // The type of the first operand: the builtin '__bool', an object of the class 'bool', or something else
  datatype Kind = Builtin | Boxed | NotBool

  // An operand of the class 'bool' is read first, into the register reserved for this
  function Patched(code: Code, offset: nat, lvid: nat, kind: Kind, compareTo: bool, id: nat, result: nat): (r: Code)
    requires offset + 2 < |code| && code[offset].Stackalloc?
    ensures |r| == |code|
    ensures forall i :: 0 <= i < |code| && i != offset + 1 && i != offset + 2 ==> r[i] == code[i]
  {
    var read := if kind.Boxed? then code[offset + 1 := Fieldget(code[offset].lvid, lvid, 0)] else code;
    var value := if kind.Boxed? then code[offset].lvid else lvid;
    read[if kind.Boxed? then offset + 2 else offset + 1 :=
           if compareTo then Jnz(value, result, id) else Jz(value, result, id)]
  }

  class Analyzer {
    var code: Code
    var pending: nat      // the label of the operator being visited, 0 when there is none
    var compareTo: bool   // the value of the first operand which decides

    constructor (sequence: Code, id: nat, value: bool)
      ensures code == sequence && pending == id && compareTo == value
    {
      code, pending, compareTo := sequence, id, value;
    }

    method GenerateShortCircuit(offset: nat, lvid: nat, kind: Kind, result: nat) returns (ok: bool)
      requires 0 < offset < |code| ==>
        && offset + 2 < |code| && code[offset].Stackalloc?
        && code[offset + 1].Nop? && code[offset + 2].Nop?
      modifies this`code, this`pending
      ensures ok <==> 0 < offset < |old(code)| && kind != NotBool
      ensures !ok ==> code == old(code) && pending == old(pending)
      ensures ok ==> code == Patched(old(code), offset, lvid, kind, compareTo, old(pending), result) && pending == 0
    {
      if !(0 < offset < |code|) {
        return false;
      }
      var value, at := lvid, offset;
      if kind != Builtin {
        if kind != Boxed {
          return false;
        }
        value := code[at].lvid;
        at := at + 1;
        code := code[at := Fieldget(value, lvid, 0)];
      }
      at := at + 1;
      if !compareTo {
        code := code[at := Jz(value, result, pending)];
      } else {
        code := code[at := Jnz(value, result, pending)];
      }
      pending := 0;
      return true;
    }
  }

  // ---- what the rewriting leaves as it was ----

  predicate IsGate(i: Instr) { i.Jz? || i.Jnz? }

  // The same code, but for conditional jumps in place of 'nop's
  ghost predicate Rewritten(a: Code, b: Code) {
    |a| == |b| && forall i :: 0 <= i < |a| ==> a[i] == b[i] || (a[i].Nop? && IsGate(b[i]))
  }

  lemma RewrittenCat(a: Code, b: Code, a': Code, b': Code)
    requires Rewritten(a, b) && Rewritten(a', b')
    ensures Rewritten(a + a', b + b')
  {
  }

  lemma RewrittenAround(head: Code, a: Code, b: Code, tail: Code)
    requires Rewritten(a, b)
    ensures Rewritten(head + (a + tail), head + (b + tail))
  {
  }

  lemma RewrittenCall(a: Code, b: Code, op: Code, hs: Stack, n: nat, last: nat)
    requires Rewritten(a, b)
    ensures Rewritten(MakeCall(a, op, hs, n, last).code, MakeCall(b, op, hs, n, last).code)
  {
    hide Dispatch;
    RewrittenAround(CallHeader(n), a, b, op + ([ScopeEnd] + Dispatch(hs, last + 1)));
  }

  ghost predicate SameShape(strict: Emitted, quick: Emitted) {
    Rewritten(strict.code, quick.code) && strict.n == quick.n && strict.lvid == quick.lvid
  }

  lemma RewrittenShort(l: Emitted, l': Emitted, r: Emitted, r': Emitted, n: nat, both: bool,
                       lazy: bool)
    requires SameShape(l, l') && SameShape(r, r')
    ensures SameShape(EmitShortCircuit(l, r, n, both, false), EmitShortCircuit(l', r', n, both, lazy))
  {
    var id := r.n + 1;
    var jump := if both then Jz(l.lvid, n + 2, id) else Jnz(l.lvid, n + 2, id);
    var tail := [Binary(if both then BitAnd else BitOr, n + 2, l.lvid, r.lvid), ScopeEnd,
                 Label(id), ScopeEnd, Stackalloc(id + 2), Store(n + 3, n + 2)];
    var head := [Stackalloc(n + 1), Stackalloc(n + 2), Stackalloc(n + 3), ScopeBegin];
    assert Rewritten(Room(false, id + 1, jump), Room(lazy, id + 1, jump));
    assert Rewritten(tail, tail) && Rewritten(head, head);
    hide Rewritten;
    hide Room;
    RewrittenCat(r.code, r'.code, tail, tail);
    RewrittenCat(Room(false, id + 1, jump), Room(lazy, id + 1, jump), r.code + tail, r'.code + tail);
    RewrittenCat(l.code, l'.code, Room(false, id + 1, jump) + (r.code + tail), Room(lazy, id + 1, jump)
                 + (r'.code + tail));
    RewrittenCat(head, head, l.code + (Room(false, id + 1, jump) + (r.code + tail)),
                 l'.code + (Room(lazy, id + 1, jump) + (r'.code + tail)));
  }

  lemma RewrittenChoice(a: Emitted, a': Emitted, b: Emitted, b': Emitted, d: Emitted, d': Emitted, n: nat)
    requires SameShape(a, a') && SameShape(b, b') && SameShape(d, d')
    ensures SameShape(MakeChoice(a, b, d, n), MakeChoice(a', b', d', n))
  {
    var labelElse := b.n + 1;
    var labelEnd := d.n + 1;
    var last := [Store(n + 1, d.lvid), ScopeEnd, Label(labelEnd)];
    var mid := [Store(n + 1, b.lvid), ScopeEnd, Jmp(labelEnd), Label(labelElse), ScopeBegin];
    var gate := [Jz(n + 2, 0, labelElse), ScopeBegin];
    var head := [Stackalloc(n + 1)];
    assert Rewritten(last, last) && Rewritten(mid, mid) && Rewritten(gate, gate) && Rewritten(head, head);
    hide Rewritten;
    RewrittenAround([Stackalloc(n + 2), ScopeBegin], a.code, a'.code, [Store(n + 2, a.lvid), ScopeEnd]);
    RewrittenCat(d.code, d'.code, last, last);
    RewrittenCat(mid, mid, d.code + last, d'.code + last);
    RewrittenCat(b.code, b'.code, mid + (d.code + last), mid + (d'.code + last));
    RewrittenCat(gate, gate, b.code + (mid + (d.code + last)), b'.code + (mid + (d'.code + last)));
    RewrittenCat(Condition(a, n + 2), Condition(a', n + 2), gate + (b.code + (mid + (d.code + last))),
                 gate + (b'.code + (mid + (d'.code + last))));
    RewrittenCat(head, head, Condition(a, n + 2) + (gate + (b.code + (mid + (d.code + last)))),
                 Condition(a', n + 2) + (gate + (b'.code + (mid + (d'.code + last)))));
  }

  // In a whole expression, the rewriting moves no instruction, renames no label and no register
  lemma {:induction false} OffsetsKept(e: Expr, c: Ctx, n: nat)
    ensures SameShape(EmitExpr(Strict(e), c, n), EmitExpr(e, c, n))
    decreases e, 0
  {
    hide *;
    match e
    case Const(_) => KeptLeaf(e, c, n);
    case Var(_) => KeptLeaf(e, c, n);
    case Not(e1) =>
      OffsetsKept(e1, c, n + 2);
      KeptNot(e, c, n);
    case Bin(_, l, r) =>
      OffsetsKept(l, c, n + 2);
      OffsetsKept(r, c, EmitExpr(Strict(l), c, n + 2).n);
      KeptBin(e, c, n);
    case Both(l, r, _) =>
      OffsetsKept(l, c, n + 3);
      OffsetsKept(r, c, EmitExpr(Strict(l), c, n + 3).n);
      KeptShort(e, c, n);
    case Either(l, r, _) =>
      OffsetsKept(l, c, n + 3);
      OffsetsKept(r, c, EmitExpr(Strict(l), c, n + 3).n);
      KeptShort(e, c, n);
    case Choice(cond, t, f) =>
      OffsetsKept(cond, c, n + 2);
      OffsetsKept(t, c, EmitExpr(Strict(cond), c, n + 2).n);
      OffsetsKept(f, c, EmitExpr(Strict(t), c, EmitExpr(Strict(cond), c, n + 2).n).n + 1);
      KeptChoice(e, c, n);
    case Apply(f, args) =>
      ArgsKept(args, c, n + 2);
      KeptApply(e, c, n);
  }

  lemma KeptLeaf(e: Expr, c: Ctx, n: nat)
    requires e.Const? || e.Var?
    ensures SameShape(EmitExpr(Strict(e), c, n), EmitExpr(e, c, n))
  {
  }

  lemma KeptNot(e: Expr, c: Ctx, n: nat)
    requires e.Not? && SameShape(EmitExpr(Strict(e.e), c, n + 2), EmitExpr(e.e, c, n + 2))
    ensures SameShape(EmitExpr(Strict(e), c, n), EmitExpr(e, c, n))
  {
    UnfoldExpr(Strict(e), c, n);
    UnfoldExpr(e, c, n);
    hide EmitExpr;
    var r := EmitExpr(Strict(e.e), c, n + 2);
    RewrittenCall(r.code, EmitExpr(e.e, c, n + 2).code, [Negation(n + 2, r.lvid)], c.hs, n, r.n);
  }

  lemma KeptBin(e: Expr, c: Ctx, n: nat)
    requires e.Bin? && SameShape(EmitExpr(Strict(e.l), c, n + 2), EmitExpr(e.l, c, n + 2))
    requires var k := EmitExpr(Strict(e.l), c, n + 2).n; SameShape(EmitExpr(Strict(e.r), c, k), EmitExpr(e.r, c, k))
    ensures SameShape(EmitExpr(Strict(e), c, n), EmitExpr(e, c, n))
  {
    UnfoldExpr(Strict(e), c, n);
    UnfoldExpr(e, c, n);
    hide EmitExpr;
    var a, a' := EmitExpr(Strict(e.l), c, n + 2), EmitExpr(e.l, c, n + 2);
    var b, b' := EmitExpr(Strict(e.r), c, a.n), EmitExpr(e.r, c, a.n);
    RewrittenCat(a.code, a'.code, b.code, b'.code);
    RewrittenCall(a.code + b.code, a'.code + b'.code, [Binary(e.op, n + 2, a.lvid, b.lvid)], c.hs, n, b.n);
  }

  lemma KeptShort(e: Expr, c: Ctx, n: nat)
    requires (e.Both? || e.Either?) && SameShape(EmitExpr(Strict(e.l), c, n + 3), EmitExpr(e.l, c, n + 3))
    requires var k := EmitExpr(Strict(e.l), c, n + 3).n; SameShape(EmitExpr(Strict(e.r), c, k), EmitExpr(e.r, c, k))
    ensures SameShape(EmitExpr(Strict(e), c, n), EmitExpr(e, c, n))
  {
    UnfoldExpr(Strict(e), c, n);
    UnfoldExpr(e, c, n);
    hide EmitExpr;
    var a, a' := EmitExpr(Strict(e.l), c, n + 3), EmitExpr(e.l, c, n + 3);
    RewrittenShort(a, a', EmitExpr(Strict(e.r), c, a.n), EmitExpr(e.r, c, a.n), n, e.Both?, e.lazy);
  }

  lemma KeptChoice(e: Expr, c: Ctx, n: nat)
    requires e.Choice? && SameShape(EmitExpr(Strict(e.c), c, n + 2), EmitExpr(e.c, c, n + 2))
    requires var k := EmitExpr(Strict(e.c), c, n + 2).n; SameShape(EmitExpr(Strict(e.t), c, k), EmitExpr(e.t, c, k))
    requires var k := EmitExpr(Strict(e.t), c, EmitExpr(Strict(e.c), c, n + 2).n).n + 1;
      SameShape(EmitExpr(Strict(e.e), c, k), EmitExpr(e.e, c, k))
    ensures SameShape(EmitExpr(Strict(e), c, n), EmitExpr(e, c, n))
  {
    UnfoldExpr(Strict(e), c, n);
    UnfoldExpr(e, c, n);
    hide EmitExpr;
    var a, a' := EmitExpr(Strict(e.c), c, n + 2), EmitExpr(e.c, c, n + 2);
    var b, b' := EmitExpr(Strict(e.t), c, a.n), EmitExpr(e.t, c, a.n);
    RewrittenChoice(a, a', b, b', EmitExpr(Strict(e.e), c, b.n + 1), EmitExpr(e.e, c, b.n + 1), n);
  }

  lemma KeptApply(e: Expr, c: Ctx, n: nat)
    requires e.Apply?
    requires var a, a' := EmitArgs(StrictArgs(e.args), c, n + 2), EmitArgs(e.args, c, n + 2);
      Rewritten(a.code, a'.code) && a.n == a'.n && a.lvids == a'.lvids
    ensures SameShape(EmitExpr(Strict(e), c, n), EmitExpr(e, c, n))
  {
    UnfoldExpr(Strict(e), c, n);
    UnfoldExpr(e, c, n);
    hide EmitExpr;
    hide EmitArgs;
    var a := EmitArgs(StrictArgs(e.args), c, n + 2);
    RewrittenCall(a.code, EmitArgs(e.args, c, n + 2).code, Pushes(a.lvids) + [Call(n + 2, e.f)], c.hs, n, a.n);
  }

  lemma {:induction false} ArgsKept(args: Args, c: Ctx, n: nat)
    ensures var a, a' := EmitArgs(StrictArgs(args), c, n), EmitArgs(args, c, n);
      Rewritten(a.code, a'.code) && a.n == a'.n && a.lvids == a'.lvids
    decreases args, 1
  {
    if args.More? {
      OffsetsKept(args.e, c, n);
      var a, a' := EmitExpr(Strict(args.e), c, n), EmitExpr(args.e, c, n);
      ArgsKept(args.rest, c, a.n);
      hide EmitExpr;
      RewrittenCat(a.code, a'.code, EmitArgs(StrictArgs(args.rest), c, a.n).code, EmitArgs(args.rest, c, a.n).code);
    }
  }

  // The analyser makes the emitted code out of the code emitted before typing
  lemma RoomIsPatched(l: Emitted, r: Emitted, n: nat, both: bool)
    ensures var strict := EmitShortCircuit(l, r, n, both, false).code;
      var at := 4 + |l.code|;
      && at + 2 < |strict| && strict[at] == Stackalloc(r.n + 2) && strict[at + 1].Nop? && strict[at + 2].Nop?
      && EmitShortCircuit(l, r, n, both, true).code
         == Patched(strict, at, l.lvid, Builtin, !both, r.n + 1, n + 2)
  {
  }

  // ---- what the rewriting changes at run time ----

  // The value of the first operand, if it can be read
  function Operand(m: Program, s: State, lvid: nat, kind: Kind): Option<u64>
    requires lvid < |s.act.regs|
  {
    var v := s.act.regs[lvid];
    if kind.Builtin? then Some(v)
    else if v == 0 || v !in m.heap || |m.heap[v]| == 0 then None
    else Some(m.heap[v][0])
  }

  predicate IsDecided(compareTo: bool, a: u64) { compareTo <==> a != 0 }

  // The room reserved before the second operand stands at 'offset', and the label of the operator after it
  ghost predicate Reserved(code: Code, offset: nat, first: nat, id: nat) {
    && OrderedLabels(code) && PositiveLabels(code)
    && offset + 3 < first < |code|
    && code[offset].Stackalloc? && code[offset + 1].Nop? && code[offset + 2].Nop? && code[offset + 3].ScopeBegin?
    && code[first] == Label(id) && UpTo(code, first) < id
  }

  ghost predicate Stands(m: Program, s: State, f: nat, code: Code, offset: nat, lvid: nat, result: nat) {
    && f < |m.funcs| && m.funcs[f] == code && s.status == Running && s.act.func == f && s.act.pc == offset
    && offset < |code| && code[offset].Stackalloc?
    && s.act.upper == UpTo(code, offset) && Max(code[offset].lvid, Max(lvid, result)) < |s.act.regs|
  }

  // The registers once the first operand was read
  function Known(code: Code, offset: nat, kind: Kind, regs: seq<u64>, a: u64): seq<u64>
    requires offset < |code| && code[offset].Stackalloc? && code[offset].lvid < |regs|
  {
    if kind.Boxed? then regs[code[offset].lvid := a] else regs
  }

  lemma {:induction false} UpToSame(code: Code, code': Code, n: nat)
    requires |code| == |code'| && n <= |code|
    requires forall i :: 0 <= i < n ==> code'[i] == code[i] || (!code'[i].Label? && !code[i].Label?)
    ensures UpTo(code', n) == UpTo(code, n)
  {
    if n > 0 {
      UpToSame(code, code', n - 1);
    }
  }

  lemma GateGoes(code: Code, offset: nat, first: nat, id: nat, lvid: nat, kind: Kind, compareTo: bool, result: nat)
    requires Reserved(code, offset, first, id) && kind != NotBool
    ensures var code' := Patched(code, offset, lvid, kind, compareTo, id, result);
      var at := if kind.Boxed? then offset + 2 else offset + 1;
      Goto(code', at, UpTo(code, offset), id) == Some(first)
  {
    var code' := Patched(code, offset, lvid, kind, compareTo, id, result);
    var at := if kind.Boxed? then offset + 2 else offset + 1;
    assert UpTo(code, offset) < id by {
      if UpTo(code, offset) > 0 {
        var i := UpToIsReached(code, offset);
        UpToIsBound(code, first, i);
      }
    }
    forall i | at < i < first
      ensures code'[i] != Label(id)
    {
      if code[i] == Label(id) {
        UpToIsBound(code, first, i);
      }
    }
  }

  // The first operand decides: two or three instructions later, the machine is right after the label of the
  // operator, and not one instruction of the second operand was visited
  lemma DecidedSkips(m: Program, s: State, f: nat, code: Code, offset: nat, first: nat, id: nat, lvid: nat, kind: Kind,
                     compareTo: bool, result: nat)
    requires Reserved(code, offset, first, id) && kind != NotBool
    requires Stands(m, s, f, Patched(code, offset, lvid, kind, compareTo, id, result), offset, lvid, result)
    requires Operand(m, s, lvid, kind).Some? && IsDecided(compareTo, Operand(m, s, lvid, kind).value)
    ensures StepN(m, s, if kind.Boxed? then 3 else 2)
         == s.(act := s.act.(pc := first + 1, upper := id,
                             regs := Known(code, offset, kind, s.act.regs, Operand(m, s, lvid, kind).value)
                                       [result := if compareTo then 1 else 0]))
  {
    GateGoes(code, offset, first, id, lvid, kind, compareTo, result);
    var code' := Patched(code, offset, lvid, kind, compareTo, id, result);
    UpToSame(code, code', offset);
    hide Step;
    RoomStep(m, s, f, code', offset);
    var s1 := Step(m, s);
    if kind.Boxed? {
      ReadStep(m, s1, f, code', offset + 1, lvid, code[offset].lvid);
      var s2 := Step(m, s1);
      GateJumps(m, s2, f, code', offset + 2, code[offset].lvid, result, id, compareTo, first);
      ThreeSteps(m, s);
    } else {
      GateJumps(m, s1, f, code', offset + 1, lvid, result, id, compareTo, first);
      TwoSteps(m, s);
    }
  }

  lemma GateJumps(m: Program, s: State, f: nat, code: Code, at: nat, lvid: nat, result: nat, id: nat, compareTo: bool,
                  first: nat)
    requires f < |m.funcs| && m.funcs[f] == code && s.status == Running && s.act.func == f && s.act.pc == at < |code|
    requires code[at] == if compareTo then Jnz(lvid, result, id) else Jz(lvid, result, id)
    requires lvid < |s.act.regs| && result < |s.act.regs| && IsDecided(compareTo, s.act.regs[lvid])
    requires Goto(code, at, s.act.upper, id) == Some(first)
    ensures Step(m, s)
         == s.(act := s.act.(pc := first + 1, upper := id, regs := s.act.regs[result := if compareTo then 1 else 0]))
  {
  }

  lemma TwoSteps(m: Program, s: State)
    ensures StepN(m, s, 2) == Step(m, Step(m, s))
  {
    hide Step;
    assert StepN(m, s, 2) == StepN(m, Step(m, s), 1);
    assert StepN(m, Step(m, s), 1) == StepN(m, Step(m, Step(m, s)), 0);
  }

  lemma ThreeSteps(m: Program, s: State)
    ensures StepN(m, s, 3) == Step(m, Step(m, Step(m, s)))
  {
    hide Step;
    assert StepN(m, s, 3) == StepN(m, Step(m, s), 2);
    TwoSteps(m, Step(m, s));
  }

  lemma FourSteps(m: Program, s: State)
    ensures StepN(m, s, 4) == Step(m, Step(m, Step(m, Step(m, s))))
  {
    hide Step;
    assert StepN(m, s, 4) == StepN(m, Step(m, s), 3);
    ThreeSteps(m, Step(m, s));
  }

  lemma RoomStep(m: Program, s: State, f: nat, code: Code, at: nat)
    requires f < |m.funcs| && m.funcs[f] == code && s.status == Running && s.act.func == f && s.act.pc == at < |code|
    requires code[at].Stackalloc? || code[at].Nop? || code[at].ScopeBegin?
    requires MaxLvid(code[at]) < |s.act.regs|
    ensures Step(m, s) == s.(act := s.act.(pc := at + 1))
  {
  }

  // The first operand does not decide: the code of the second one is entered as in the strict program, with the
  // same registers but the one reserved for reading the first operand
  lemma UndecidedGoesOn(m: Program, m': Program, s: State, f: nat, code: Code, offset: nat, first: nat, id: nat,
                        lvid: nat, kind: Kind, compareTo: bool, result: nat)
    requires Reserved(code, offset, first, id) && kind != NotBool && m'.heap == m.heap
    requires Stands(m, s, f, code, offset, lvid, result)
    requires Stands(m', s, f, Patched(code, offset, lvid, kind, compareTo, id, result), offset, lvid, result)
    requires Operand(m, s, lvid, kind).Some? && !IsDecided(compareTo, Operand(m, s, lvid, kind).value)
    ensures StepN(m, s, 4) == s.(act := s.act.(pc := offset + 4))
    ensures StepN(m', s, 4)
         == s.(act := s.act.(pc := offset + 4,
                             regs := Known(code, offset, kind, s.act.regs, Operand(m, s, lvid, kind).value)))
  {
    hide Step;
    hide StepN;
    RoomSteps(m, s, f, code, offset);
    var code' := Patched(code, offset, lvid, kind, compareTo, id, result);
    if kind.Boxed? {
      BoxedGoesOn(m', s, f, code', offset, lvid, id, compareTo, result);
    } else {
      BuiltinGoesOn(m', s, f, code', offset, lvid, id, compareTo, result);
    }
  }

  lemma BoxedGoesOn(m: Program, s: State, f: nat, code: Code, at: nat, lvid: nat, id: nat, compareTo: bool, result: nat)
    requires Stands(m, s, f, code, at, lvid, result) && at + 3 < |code|
    requires code[at + 1] == Fieldget(code[at].lvid, lvid, 0) && code[at + 3].ScopeBegin?
    requires code[at + 2] == if compareTo then Jnz(code[at].lvid, result, id) else Jz(code[at].lvid, result, id)
    requires Operand(m, s, lvid, Boxed).Some? && !IsDecided(compareTo, Operand(m, s, lvid, Boxed).value)
    ensures StepN(m, s, 4)
         == s.(act := s.act.(pc := at + 4, regs := s.act.regs[code[at].lvid := Operand(m, s, lvid, Boxed).value]))
  {
    hide Step;
    hide StepN;
    RoomStep(m, s, f, code, at);
    ReadStep(m, s.(act := s.act.(pc := at + 1)), f, code, at + 1, lvid, code[at].lvid);
    var regs := s.act.regs[code[at].lvid := Operand(m, s, lvid, Boxed).value];
    var t2 := s.(act := s.act.(pc := at + 2, regs := regs));
    GatePassed(m, t2, f, code, at + 2, code[at].lvid, result, id, compareTo);
    RoomStep(m, s.(act := s.act.(pc := at + 3, regs := regs)), f, code, at + 3);
    FourSteps(m, s);
  }

  lemma BuiltinGoesOn(m: Program, s: State, f: nat, code: Code, at: nat, lvid: nat, id: nat, compareTo: bool,
                      result: nat)
    requires Stands(m, s, f, code, at, lvid, result) && at + 3 < |code|
    requires code[at + 1] == if compareTo then Jnz(lvid, result, id) else Jz(lvid, result, id)
    requires code[at + 2].Nop? && code[at + 3].ScopeBegin? && !IsDecided(compareTo, s.act.regs[lvid])
    ensures StepN(m, s, 4) == s.(act := s.act.(pc := at + 4))
  {
    hide Step;
    hide StepN;
    RoomStep(m, s, f, code, at);
    GatePassed(m, s.(act := s.act.(pc := at + 1)), f, code, at + 1, lvid, result, id, compareTo);
    RoomStep(m, s.(act := s.act.(pc := at + 2)), f, code, at + 2);
    RoomStep(m, s.(act := s.act.(pc := at + 3)), f, code, at + 3);
    FourSteps(m, s);
  }

  lemma RoomSteps(m: Program, s: State, f: nat, code: Code, at: nat)
    requires f < |m.funcs| && m.funcs[f] == code && s.status == Running && s.act.func == f && s.act.pc == at
    requires at + 3 < |code| && code[at].Stackalloc? && code[at].lvid < |s.act.regs|
    requires code[at + 1].Nop? && code[at + 2].Nop? && code[at + 3].ScopeBegin?
    ensures StepN(m, s, 4) == s.(act := s.act.(pc := at + 4))
  {
    hide Step;
    hide StepN;
    RoomStep(m, s, f, code, at);
    RoomStep(m, s.(act := s.act.(pc := at + 1)), f, code, at + 1);
    RoomStep(m, s.(act := s.act.(pc := at + 2)), f, code, at + 2);
    RoomStep(m, s.(act := s.act.(pc := at + 3)), f, code, at + 3);
    FourSteps(m, s);
  }

  lemma ReadStep(m: Program, s: State, f: nat, code: Code, at: nat, self: nat, lvid: nat)
    requires f < |m.funcs| && m.funcs[f] == code && s.status == Running && s.act.func == f && s.act.pc == at < |code|
    requires code[at] == Fieldget(lvid, self, 0) && Max(lvid, self) < |s.act.regs|
    requires Operand(m, s, self, Boxed).Some?
    ensures Step(m, s)
         == s.(act := s.act.(pc := at + 1, regs := s.act.regs[lvid := Operand(m, s, self, Boxed).value]))
  {
  }

  lemma GatePassed(m: Program, s: State, f: nat, code: Code, at: nat, lvid: nat, result: nat, id: nat, compareTo: bool)
    requires f < |m.funcs| && m.funcs[f] == code && s.status == Running && s.act.func == f && s.act.pc == at < |code|
    requires code[at] == if compareTo then Jnz(lvid, result, id) else Jz(lvid, result, id)
    requires lvid < |s.act.regs| && result < |s.act.regs| && !IsDecided(compareTo, s.act.regs[lvid])
    ensures Step(m, s) == s.(act := s.act.(pc := at + 1))
  {
  }

  // ---- the same result ----

  function Bitwise(compareTo: bool, a: u64, b: u64): nat { if compareTo then BitwiseOr(a, b) else BitwiseAnd(a, b) }

  // The strict program, once both operands are evaluated
  lemma StrictResult(m: Program, u: State, f: nat, code: Code, at: nat, lhs: nat, rhs: nat, result: nat, id: nat,
                     compareTo: bool)
    requires f < |m.funcs| && m.funcs[f] == code && u.status == Running && u.act.func == f && u.act.pc == at
    requires at + 2 < |code| && code[at] == Binary(if compareTo then BitOr else BitAnd, result, lhs, rhs)
    requires code[at + 1].ScopeEnd? && code[at + 2] == Label(id) && u.act.upper <= id
    requires Max(result, Max(lhs, rhs)) < |u.act.regs|
    ensures var t := StepN(m, u, 3);
      && t == u.(act := u.act.(pc := at + 3, upper := id, regs := t.act.regs))
      && |t.act.regs| == |u.act.regs|
      && t.act.regs[result] == Bitwise(compareTo, u.act.regs[lhs], u.act.regs[rhs])
  {
    var v: u64 := (Pow2Of64(); BitwiseOrFits(u.act.regs[lhs], u.act.regs[rhs], 64);
                   Bitwise(compareTo, u.act.regs[lhs], u.act.regs[rhs]));
    hide Step;
    hide StepN;
    ThreeSteps(m, u);
    StrictStep(m, u, f, code, at, lhs, rhs, result, compareTo, v);
    var u1 := Step(m, u);
    EndStep(m, u1, f, code, at + 1, id);
  }

  lemma StrictStep(m: Program, u: State, f: nat, code: Code, at: nat, lhs: nat, rhs: nat, result: nat, compareTo: bool,
                   v: u64)
    requires f < |m.funcs| && m.funcs[f] == code && u.status == Running && u.act.func == f && u.act.pc == at < |code|
    requires code[at] == Binary(if compareTo then BitOr else BitAnd, result, lhs, rhs)
    requires Max(result, Max(lhs, rhs)) < |u.act.regs| && v == Bitwise(compareTo, u.act.regs[lhs], u.act.regs[rhs])
    ensures Step(m, u) == u.(act := u.act.(pc := at + 1, regs := u.act.regs[result := v]))
  {
    hide BitwiseOr;
    hide BitwiseAnd;
  }

  lemma EndStep(m: Program, u: State, f: nat, code: Code, at: nat, id: nat)
    requires f < |m.funcs| && m.funcs[f] == code && u.status == Running && u.act.func == f && u.act.pc == at
    requires at + 1 < |code| && code[at].ScopeEnd? && code[at + 1] == Label(id) && u.act.upper <= id
    requires |u.act.regs| > 0
    ensures Step(m, Step(m, u)) == u.(act := u.act.(pc := at + 2, upper := id))
  {
  }
}
