// The part of the instruction set which drives control flow, and the labels of a sequence.
module Isa {

  datatype Option<+T> = None | Some(value: T)

  const U64_SIZE: int := 0x1_0000_0000_0000_0000

  // One register of the VM
  type u64 = x: int | 0 <= x < 0x1_0000_0000_0000_0000

  datatype BinOp = Add | Sub | Mul | Div | BitAnd | BitOr | Eq | Neq | Lt | Lte

  datatype Instr =
    | Stacksize(add: nat)
    | Nop
    | ScopeBegin
    | ScopeEnd
    | Stackalloc(lvid: nat)
    | StoreConst(lvid: nat, value: u64)
    | Store(lvid: nat, source: nat)
    | Binary(op: BinOp, lvid: nat, lhs: nat, rhs: nat)
    | Negation(lvid: nat, lhs: nat)
    | Fieldget(lvid: nat, self: nat, field: nat)
    | Opassert(lvid: nat)
    | Push(lvid: nat)
    | Intrinsic(iid: nat)
    | Call(lvid: nat, func: nat)
    | Ret(lvid: nat)
    | Label(id: nat)
    | Jmp(target: nat)
    | Jz(lvid: nat, result: nat, target: nat)
    | Jnz(lvid: nat, result: nat, target: nat)
    | Raise(lvid: nat, target: nat, atomid: nat)
    | Jzraise(target: nat)
    | Jmperrhandler(atomid: nat, target: nat)

  type Code = seq<Instr>

  function Max(a: nat, b: nat): nat { if a < b then b else a }

  // Bitwise operations on registers, bit by bit
  function BitwiseAnd(a: nat, b: nat): (r: nat)
    ensures r <= a && r <= b
  {
    if a == 0 || b == 0 then 0 else (a % 2) * (b % 2) + 2 * BitwiseAnd(a / 2, b / 2)
  }

  function BitwiseOr(a: nat, b: nat): (r: nat)
    ensures a <= r <= a + b && b <= r
  {
    if a == 0 then b
    else if b == 0 then a
    else Max(a % 2, b % 2) + 2 * BitwiseOr(a / 2, b / 2)
  }

  lemma {:induction false} BitwiseOrFits(a: nat, b: nat, size: nat)
    requires a < Pow2(size) && b < Pow2(size)
    ensures BitwiseOr(a, b) < Pow2(size)
  {
    if a != 0 && b != 0 {
      BitwiseOrFits(a / 2, b / 2, size - 1);
    }
  }

  function Pow2(n: nat): (r: nat)
    ensures r > 0
  {
    if n == 0 then 1 else 2 * Pow2(n - 1)
  }

  lemma Pow2Of64()
    ensures Pow2(64) == U64_SIZE
  {
    assert Pow2(8) == 0x100;
    assert Pow2(16) == 0x1_0000;
    assert Pow2(24) == 0x100_0000;
    assert Pow2(32) == 0x1_0000_0000;
    assert Pow2(40) == 0x100_0000_0000;
    assert Pow2(48) == 0x1_0000_0000_0000;
    assert Pow2(56) == 0x100_0000_0000_0000;
  }

  // Unsigned 64-bit arithmetic; a division by zero is an error
  function Arith(op: BinOp, a: u64, b: u64): Option<u64> {
    match op
    case Add => Some((a + b) % U64_SIZE)
    case Sub => Some((a - b) % U64_SIZE)
    case Mul => Some((a * b) % U64_SIZE)
    case Div => if b == 0 then None else Some(a / b)
    case BitAnd => Some(BitwiseAnd(a, b))
    case BitOr => Some((Pow2Of64(); BitwiseOrFits(a, b, 64); BitwiseOr(a, b)))
    case Eq => Some(if a == b then 1 else 0)
    case Neq => Some(if a != b then 1 else 0)
    case Lt => Some(if a < b then 1 else 0)
    case Lte => Some(if a <= b then 1 else 0)
  }

  // The greatest register an instruction addresses (0 if none). An error handler writes the error
  // into the register which follows its label.
  function MaxLvid(i: Instr): nat {
    match i
    case Stackalloc(lvid) => lvid
    case StoreConst(lvid, _) => lvid
    case Store(lvid, source) => Max(lvid, source)
    case Binary(_, lvid, lhs, rhs) => Max(lvid, Max(lhs, rhs))
    case Negation(lvid, lhs) => Max(lvid, lhs)
    case Fieldget(lvid, self, _) => Max(lvid, self)
    case Opassert(lvid) => lvid
    case Push(lvid) => lvid
    case Call(lvid, _) => lvid
    case Ret(lvid) => lvid
    case Jz(lvid, result, _) => Max(lvid, result)
    case Jnz(lvid, result, _) => Max(lvid, result)
    case Raise(lvid, target, _) => if target == 0 then lvid else Max(lvid, target + 1)
    case Jmperrhandler(atomid, target) => if atomid == 0 then 0 else target + 1
    case _ => 0
  }

  // ---- labels ----

  // The greatest label among the 'n' first instructions (0 if none)
  function UpTo(code: Code, n: nat): nat
    requires n <= |code|
  {
    if n == 0 then 0
    else if code[n - 1].Label? then Max(code[n - 1].id, UpTo(code, n - 1))
    else UpTo(code, n - 1)
  }

  predicate HasLabel(code: Code, id: nat) {
    exists i :: 0 <= i < |code| && code[i] == Label(id)
  }

  ghost predicate PositiveLabels(code: Code) {
    forall i :: 0 <= i < |code| && code[i].Label? ==> code[i].id > 0
  }

  ghost predicate OrderedLabels(code: Code) {
    forall i, j :: 0 <= i < j < |code| && code[i].Label? && code[j].Label? ==> code[i].id <= code[j].id
  }

  ghost predicate StrictLabels(code: Code) {
    forall i, j :: 0 <= i < j < |code| && code[i].Label? && code[j].Label? ==> code[i].id < code[j].id
  }

  lemma UpToIsBound(code: Code, n: nat, i: nat)
    requires i < n <= |code| && code[i].Label?
    ensures code[i].id <= UpTo(code, n)
  {
    if i < n - 1 {
      UpToIsBound(code, n - 1, i);
    }
  }

  lemma UpToIsReached(code: Code, n: nat) returns (i: nat)
    requires n <= |code| && UpTo(code, n) > 0
    ensures i < n && code[i] == Label(UpTo(code, n))
  {
    if code[n - 1].Label? && code[n - 1].id >= UpTo(code, n - 1) {
      i := n - 1;
    } else {
      i := UpToIsReached(code, n - 1);
    }
  }

  // In a sequence with ordered labels, the greatest label up to a label is that label
  lemma UpToOrdered(code: Code, i: nat)
    requires OrderedLabels(code) && i < |code| && code[i].Label?
    ensures UpTo(code, i + 1) == code[i].id
  {
    if UpTo(code, i) > 0 {
      var j := UpToIsReached(code, i);
    }
  }
}
