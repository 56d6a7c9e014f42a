// What the arithmetic instructions of the VM compute, seen from the machine: one instruction is visited and its
// register is read. The laws say what this register holds for all operands, with 64 bits.
module Arithmetic {
  import opened Isa
  import opened Machine
  import opened Source

  // The register 2 of a function with one instruction, 'r2 = r0 op r1', once it was visited
  function Visited(op: BinOp, a: u64, b: u64): State {
    Step(Program([[Stacksize(3), Binary(op, 2, 0, 1)]], 0, map[]),
         State(Activation(0, 1, 0, [a, b, 0]), [], [], 0, false, 0, 0, [], Running))
  }

  function Computed(op: BinOp, a: u64, b: u64): Option<u64> {
    var s := Visited(op, a, b);
    if s.status == Running && |s.act.regs| == 3 then Some(s.act.regs[2]) else None
  }

  lemma Visiting(op: BinOp, a: u64, b: u64)
    ensures Computed(op, a, b) == Arith(op, a, b)
  {
    hide Arith;
    hide BitwiseAnd;
    hide BitwiseOr;
    assert [a, b, 0][..3] == [a, b, 0];
  }

  // The same wherever the instruction stands, and whatever the registers are: nothing else changes
  lemma BinaryComputes(p: Program, s: State, op: BinOp, d: nat, l: nat, r: nat)
    requires s.status == Running && s.act.func < |p.funcs| && s.act.pc < |p.funcs[s.act.func]|
    requires p.funcs[s.act.func][s.act.pc] == Binary(op, d, l, r)
    requires d < |s.act.regs| && l < |s.act.regs| && r < |s.act.regs|
    ensures var c := Computed(op, s.act.regs[l], s.act.regs[r]);
      Step(p, s) == if c.None? then s.(status := Fault(DivideByZero))
                    else s.(act := s.act.(pc := s.act.pc + 1, regs := s.act.regs[d := c.value]))
  {
    Visiting(op, s.act.regs[l], s.act.regs[r]);
    hide Computed;
    hide Arith;
  }

  // So does the meaning of an expression
  lemma MeaningComputes(p: seq<Func>, op: BinOp, l: Expr, r: Expr, env: Env, h: Shield, trace: seq<Event>, fuel: nat)
    ensures var o := RunExpr(p, l, env, h, trace, fuel);
      o.Value? ==>
        var o' := RunExpr(p, r, env, h, o.trace, fuel);
        o'.Value? ==>
          var c := Computed(op, o.v, o'.v);
          RunExpr(p, Bin(op, l, r), env, h, trace, fuel)
          == if c.Some? then Value(c.value, o'.trace) else ExprExit(Crashed(DivideByZero), o'.trace)
  {
    var o := RunExpr(p, l, env, h, trace, fuel);
    if o.Value? {
      var o' := RunExpr(p, r, env, h, o.trace, fuel);
      if o'.Value? {
        Visiting(op, o.v, o'.v);
        hide Computed;
        hide Arith;
      }
    }
  }

  // Only a division by zero has no result
  lemma Computes(op: BinOp, a: u64, b: u64)
    ensures Computed(op, a, b).None? <==> op.Div? && b == 0
  {
    Visiting(op, a, b);
    hide Computed;
  }

  // ---- sums and differences ----

  lemma SumIs(a: u64, b: u64)
    ensures var d := Computed(Add, a, b);
      d.Some? && (d.value == a + b || (a + b >= U64_SIZE && d.value == a + b - U64_SIZE))
  {
    Visiting(Add, a, b);
    hide Computed;
  }

  lemma DifferenceIs(a: u64, b: u64)
    ensures var d := Computed(Sub, a, b);
      d.Some? && Computed(Add, d.value, b) == Some(a) && (a >= b ==> d.value == a - b)
  {
    Visiting(Sub, a, b);
    Visiting(Add, (a - b) % U64_SIZE, b);
    hide Computed;
  }

  // ---- products and quotients ----

  lemma ModShift(x: int, k: int)
    ensures (x + k * U64_SIZE) % U64_SIZE == x % U64_SIZE
  {
  }

  lemma ProductIs(a: u64, b: u64)
    ensures Computed(Mul, a, b).Some?
    ensures exists k: int :: a * b == Computed(Mul, a, b).value + k * U64_SIZE
  {
    Visiting(Mul, a, b);
    hide Computed;
    assert a * b == Computed(Mul, a, b).value + (a * b / U64_SIZE) * U64_SIZE;
  }

  // The product is what distributes over the sum, from 0 and 1 on
  lemma ProductDistributes(a: u64, b: u64, c: u64)
    ensures Computed(Mul, a, 0) == Some(0) && Computed(Mul, a, 1) == Some(a)
    ensures Computed(Add, b, c).Some? && Computed(Mul, a, b).Some? && Computed(Mul, a, c).Some?
    ensures Computed(Mul, a, Computed(Add, b, c).value)
         == Computed(Add, Computed(Mul, a, b).value, Computed(Mul, a, c).value)
  {
    hide Computed;
    hide Arith;
    MulIs(a, 0);
    MulIs(a, 1);
    MulIs(a, b);
    MulIs(a, c);
    AddIs(b, c);
    MulIs(a, (b + c) % U64_SIZE);
    AddIs((a * b) % U64_SIZE, (a * c) % U64_SIZE);
    ModProduct(a, b, c);
    Units(a);
  }

  lemma MulIs(a: u64, b: u64)
    ensures Computed(Mul, a, b) == Some((a * b) % U64_SIZE)
  {
    Visiting(Mul, a, b);
    hide Computed;
  }

  lemma AddIs(a: u64, b: u64)
    ensures Computed(Add, a, b) == Some((a + b) % U64_SIZE)
  {
    Visiting(Add, a, b);
    hide Computed;
  }

  lemma Units(a: u64)
    ensures (a * 0) % U64_SIZE == 0 && (a * 1) % U64_SIZE == a
  {
  }

  lemma ModProduct(a: u64, b: u64, c: u64)
    ensures (a * ((b + c) % U64_SIZE)) % U64_SIZE == ((a * b) % U64_SIZE + (a * c) % U64_SIZE) % U64_SIZE
  {
    var q := (b + c) / U64_SIZE;
    Spread(a, b, c, (b + c) % U64_SIZE, q);
    var k: int := -(a * q);
    ModShift(a * b + a * c, k);
    ModSum(a * b, a * c);
  }

  lemma Spread(a: int, b: int, c: int, sum: int, q: int)
    requires b + c == sum + q * U64_SIZE
    ensures a * sum == a * b + a * c + -(a * q) * U64_SIZE
  {
    assert a * (b + c) == a * b + a * c;
    assert a * (q * U64_SIZE) == a * q * U64_SIZE;
  }

  lemma ModSum(x: int, y: int)
    ensures (x + y) % U64_SIZE == (x % U64_SIZE + y % U64_SIZE) % U64_SIZE
  {
  }

  lemma QuotientIs(a: u64, b: u64)
    requires b > 0
    ensures var d := Computed(Div, a, b);
      d.Some? && d.value * b <= a < (d.value + 1) * b
  {
    Visiting(Div, a, b);
    hide Computed;
    assert a == b * (a / b) + a % b;
  }

  // ---- comparisons ----

  lemma ComparisonsAre(a: u64, b: u64)
    ensures Computed(Lt, a, b) == Some(if a < b then 1 else 0)
    ensures Computed(Lte, a, b) == Some(if a < b || a == b then 1 else 0)
    ensures Computed(Eq, a, b) == Some(if a == b then 1 else 0)
    ensures Computed(Neq, a, b) == Some(if a == b then 0 else 1)
  {
    Visiting(Lt, a, b);
    Visiting(Lte, a, b);
    Visiting(Eq, a, b);
    Visiting(Neq, a, b);
    hide Computed;
  }

  // ---- bits ----

  function Bit(a: nat, i: nat): bool { (a / Pow2(i)) % 2 == 1 }

  lemma BitNext(a: nat, i: nat)
    requires i > 0
    ensures Bit(a, i) == Bit(a / 2, i - 1)
  {
    var q := Pow2(i - 1);
    DivideTwice(a, q);
  }

  lemma DivideTwice(a: nat, q: nat)
    requires q > 0
    ensures a / (2 * q) == (a / 2) / q
  {
    var h := a / 2;
    var k, r := h / q, h % q;
    assert h == q * k + r && a == 2 * h + a % 2;
    assert a == (2 * q) * k + (2 * r + a % 2);
    assert 0 <= 2 * r + a % 2 < 2 * q;
    DivisionIs(a, 2 * q, k, 2 * r + a % 2);
  }

  lemma Times(d: nat, x: nat, y: nat)
    requires x <= y
    ensures d * x <= d * y
  {
  }

  lemma DivisionIs(a: nat, d: nat, k: nat, r: nat)
    requires d > 0 && a == d * k + r && r < d
    ensures a / d == k
  {
    var k', r' := a / d, a % d;
    assert a == d * k' + r';
    if k' < k {
      Times(d, k' + 1, k);
      assert false;
    } else if k' > k {
      Times(d, k + 1, k');
      assert false;
    }
  }

  lemma {:induction false} AndBits(a: nat, b: nat, i: nat)
    ensures Bit(BitwiseAnd(a, b), i) <==> Bit(a, i) && Bit(b, i)
    decreases i
  {
    if a == 0 || b == 0 {
      NoBit(i);
    } else if i == 0 {
    } else {
      BitNext(a, i);
      BitNext(b, i);
      BitNext(BitwiseAnd(a, b), i);
      HalfOf(a % 2 * (b % 2), BitwiseAnd(a / 2, b / 2));
      AndBits(a / 2, b / 2, i - 1);
    }
  }

  lemma HalfOf(low: nat, half: nat)
    requires low < 2
    ensures (low + 2 * half) / 2 == half && (low + 2 * half) % 2 == low
  {
  }

  lemma NoBit(i: nat)
    ensures !Bit(0, i)
  {
    DivisionIs(0, Pow2(i), 0, 0);
  }

  lemma {:induction false} OrBits(a: nat, b: nat, i: nat)
    ensures Bit(BitwiseOr(a, b), i) <==> Bit(a, i) || Bit(b, i)
    decreases i
  {
    if a == 0 || b == 0 {
      NoBit(i);
    } else if i == 0 {
      OrLow(a, b);
    } else {
      hide Bit;
      BitNext(a, i);
      BitNext(b, i);
      BitNext(BitwiseOr(a, b), i);
      HalfOf(Max(a % 2, b % 2), BitwiseOr(a / 2, b / 2));
      OrBits(a / 2, b / 2, i - 1);
    }
  }

  lemma OrLow(a: nat, b: nat)
    requires a != 0 && b != 0
    ensures Bit(BitwiseOr(a, b), 0) <==> Bit(a, 0) || Bit(b, 0)
  {
    HalfOf(Max(a % 2, b % 2), BitwiseOr(a / 2, b / 2));
    hide BitwiseOr;
  }

  // Every bit of the result comes from the same bit of both operands
  lemma BitsAre(a: u64, b: u64, i: nat)
    ensures Computed(BitAnd, a, b).Some? && Computed(BitOr, a, b).Some?
    ensures Bit(Computed(BitAnd, a, b).value, i) <==> Bit(a, i) && Bit(b, i)
    ensures Bit(Computed(BitOr, a, b).value, i) <==> Bit(a, i) || Bit(b, i)
  {
    Visiting(BitAnd, a, b);
    Visiting(BitOr, a, b);
    hide Computed;
    AndBits(a, b, i);
    OrBits(a, b, i);
  }
}
