// Normalisation of expressions: operators take their left operand, then become function calls.
module Normalize {

  datatype Rule =
    // expressions with an operator
    | ExprAdd | ExprStream | ExprComparison | ExprLogic | ExprLogicAnd | ExprFactor | ExprPower | ExprNot
    | ExprAssignment
    // operators
    | OperatorAll | OperatorKind | OperatorAdd | OperatorAssignment | OperatorComparison | OperatorFactor
    | OperatorLogic | OperatorLogicAnd | OperatorPower | OperatorNot | OperatorStream
    // what may follow an identifier
    | Call | ExprSubDot | TypeSubDot | ExprTemplate | ExprSubArray
    | Identifier | Intrinsic | CallParameter | Expr | ExprValue | ExprGroup
    | OtherRule(id: nat)

  datatype Node = Node(rule: Rule, text: string, children: seq<Node>)

  predicate IsBinary(r: Rule) {
    r.ExprAdd? || r.ExprStream? || r.ExprComparison? || r.ExprLogic? || r.ExprLogicAnd? || r.ExprFactor? || r.ExprPower?
  }

  predicate IsOperator(r: Rule) { IsBinary(r) || r.ExprNot? }

  predicate IsToken(r: Rule) {
    r.OperatorAll? || r.OperatorKind? || r.OperatorAdd? || r.OperatorAssignment? || r.OperatorComparison? ||
    r.OperatorFactor? || r.OperatorLogic? || r.OperatorLogicAnd? || r.OperatorPower? || r.OperatorNot? ||
    r.OperatorStream?
  }

  predicate IsContinuation(r: Rule) {
    r.ExprSubDot? || r.TypeSubDot? || r.Call? || r.ExprTemplate? || r.ExprSubArray?
  }

  // ---- sizes ----

  function Size(n: Node): nat { 1 + SizeAll(n.children) }

  function SizeAll(cs: seq<Node>): nat { if cs == [] then 0 else Size(cs[0]) + SizeAll(cs[1..]) }

  lemma {:induction false} SizeCat(a: seq<Node>, b: seq<Node>)
    ensures SizeAll(a + b) == SizeAll(a) + SizeAll(b)
    decreases |a|
  {
    if a == [] {
      assert a + b == b;
    } else {
      assert (a + b)[1..] == a[1..] + b;
      SizeCat(a[1..], b);
    }
  }

  lemma SizeOne(n: Node)
    ensures SizeAll([n]) == Size(n)
  {
    assert [n][1..] == [];
  }

  lemma SizeHead(cs: seq<Node>)
    requires cs != []
    ensures Size(cs[0]) <= SizeAll(cs) && SizeAll(cs[1..]) < SizeAll(cs)
  {
  }

  lemma {:induction false} SizeAt(cs: seq<Node>, i: nat)
    requires i < |cs|
    ensures Size(cs[i]) <= SizeAll(cs)
    decreases |cs|
  {
    if i > 0 {
      SizeAt(cs[1..], i - 1);
    }
  }

  // ---- the operators of one level take the node before them ----

  function Adopt(op: Node, previous: Node): Node { op.(children := [previous] + op.children) }

  predicate Takes(op: Node, done: seq<Node>) { IsOperator(op.rule) && done != [] && !IsToken(done[|done| - 1].rule) }

  function Fold(done: seq<Node>, rest: seq<Node>): seq<Node>
    decreases |rest|
  {
    if rest == [] then done
    else if Takes(rest[0], done) then
      Fold(done[..|done| - 1] + [Adopt(rest[0], done[|done| - 1])], rest[1..])
    else Fold(done + [rest[0]], rest[1..])
  }

  // An identifier takes the node after it, at most one
  function Absorb(cs: seq<Node>): seq<Node>
    decreases |cs|
  {
    if cs == [] then []
    else if cs[0].rule.Identifier? && |cs| > 1 && IsContinuation(cs[1].rule) then
      [cs[0].(children := cs[0].children + [cs[1]])] + Absorb(cs[2..])
    else [cs[0]] + Absorb(cs[1..])
  }

  function Arrange(n: Node): seq<Node> {
    if n.rule.Call? || n.rule.Intrinsic? then n.children else Absorb(Fold([], n.children))
  }

  // Two siblings: an operator takes what comes before it, unless this is the symbol of an operator; an identifier takes
  // what continues it; nothing else moves
  lemma TwoSiblings(a: Node, b: Node)
    ensures Arrange(Node(Expr, "", [a, b]))
         == if b.rule in {ExprAdd, ExprStream, ExprComparison, ExprLogic, ExprLogicAnd, ExprFactor, ExprPower, ExprNot}
               && a.rule !in {OperatorAll, OperatorKind, OperatorAdd, OperatorAssignment, OperatorComparison,
                              OperatorFactor, OperatorLogic, OperatorLogicAnd, OperatorPower, OperatorNot,
                              OperatorStream}
            then [Node(b.rule, b.text, [a] + b.children)]
            else if a.rule == Identifier && b.rule in {ExprSubDot, TypeSubDot, Call, ExprTemplate, ExprSubArray}
            then [Node(Identifier, a.text, a.children + [b])]
            else [a, b]
  {
    assert [a, b][1..] == [b] && [b][1..] == [] && [a, b][2..] == [];
    assert [] + [a] == [a] && [a] + [b] == [a, b] && [a][..0] == [];
    assert Fold([], [a, b]) == Fold([a], [b]);
    if Takes(b, [a]) {
      var op := Adopt(b, a);
      assert [] + [op] == [op] && [op][1..] == [];
      assert Fold([a], [b]) == Fold([op], []);
      assert Absorb([op]) == [op] + Absorb([]);
    } else {
      assert Fold([a], [b]) == Fold([a, b], []);
      assert Absorb([b]) == [b] + Absorb([]);
    }
  }

  lemma {:induction false} FoldSize(done: seq<Node>, rest: seq<Node>)
    ensures SizeAll(Fold(done, rest)) == SizeAll(done) + SizeAll(rest)
    decreases |rest|
  {
    if rest != [] {
      if Takes(rest[0], done) {
        var before, previous := done[..|done| - 1], done[|done| - 1];
        var op := Adopt(rest[0], previous);
        FoldSize(before + [op], rest[1..]);
        assert done == before + [previous];
        SizeCat(before, [previous]);
        SizeCat(before, [op]);
        SizeOne(previous);
        SizeOne(op);
        SizeCat([previous], rest[0].children);
      } else {
        FoldSize(done + [rest[0]], rest[1..]);
        SizeCat(done, [rest[0]]);
        SizeOne(rest[0]);
      }
    }
  }

  lemma {:induction false} AbsorbSize(cs: seq<Node>)
    ensures SizeAll(Absorb(cs)) == SizeAll(cs)
    decreases |cs|
  {
    if cs != [] {
      if cs[0].rule.Identifier? && |cs| > 1 && IsContinuation(cs[1].rule) {
        var id := cs[0].(children := cs[0].children + [cs[1]]);
        AbsorbSize(cs[2..]);
        SizeCat(cs[0].children, [cs[1]]);
        SizeOne(cs[1]);
        SizeOne(id);
        SizeCat([id], Absorb(cs[2..]));
        assert cs[1..][1..] == cs[2..];
      } else {
        AbsorbSize(cs[1..]);
        SizeOne(cs[0]);
        SizeCat([cs[0]], Absorb(cs[1..]));
      }
    }
  }

  lemma ArrangeSize(n: Node)
    ensures SizeAll(Arrange(n)) == SizeAll(n.children)
  {
    FoldSize([], n.children);
    AbsorbSize(Fold([], n.children));
  }

  function Reorder(n: Node): Node
    decreases Size(n), 0
  {
    ArrangeSize(n);
    Node(n.rule, n.text, ReorderAll(Arrange(n)))
  }

  function ReorderAll(cs: seq<Node>): (r: seq<Node>)
    ensures |r| == |cs|
    decreases SizeAll(cs), 1
  {
    if cs == [] then []
    else
      SizeHead(cs);
      [Reorder(cs[0])] + ReorderAll(cs[1..])
  }

  lemma {:induction false} ReorderAt(cs: seq<Node>, i: nat)
    requires i < |cs|
    ensures ReorderAll(cs)[i] == Reorder(cs[i])
    decreases |cs|
  {
    if i > 0 {
      ReorderAt(cs[1..], i - 1);
    }
  }

  // ---- the loops ----

  method TakeLeftOperands(nodes: seq<Node>) returns (children: seq<Node>)
    ensures children == Fold([], nodes)
  {
    children := nodes;
    var i, count := 0, |children|;
    while i != count
      invariant i <= count == |children|
      invariant Fold(children[..i], children[i..]) == Fold([], nodes)
      decreases count - i
    {
      ghost var was, at := children, i;
      if IsOperator(children[i].rule) && i > 0 && !IsToken(children[i - 1].rule) {
        children := children[..i - 1] + [Adopt(children[i], children[i - 1])] + children[i + 1..];
        i := i - 1;
        count := |children|;
      }
      i := i + 1;
      FoldStep(was, at, children, i);
    }
    assert children[..i] == children && children[i..] == [];
  }

  method AbsorbContinuations(nodes: seq<Node>) returns (children: seq<Node>)
    ensures children == Absorb(nodes)
  {
    children := nodes;
    var i, count := 0, |children|;
    while i < count
      invariant i <= count == |children|
      invariant children[..i] + Absorb(children[i..]) == Absorb(nodes)
      decreases count - i
    {
      ghost var was := children;
      if children[i].rule.Identifier? && i + 1 < count && IsContinuation(children[i + 1].rule) {
        var child := children[i].(children := children[i].children + [children[i + 1]]);
        children := children[..i] + [child] + children[i + 2..];
        count := |children|;
      }
      AbsorbStep(was, i, children);
      i := i + 1;
    }
    assert children[..i] == children && children[i..] == [];
  }

  lemma AbsorbStep(was: seq<Node>, i: nat, now: seq<Node>)
    requires i < |was|
    requires now == if was[i].rule.Identifier? && i + 1 < |was| && IsContinuation(was[i + 1].rule) then
        was[..i] + [was[i].(children := was[i].children + [was[i + 1]])] + was[i + 2..]
      else was
    ensures i < |now| && now[..i + 1] + Absorb(now[i + 1..]) == was[..i] + Absorb(was[i..])
  {
    assert was[i..][0] == was[i];
    if was[i].rule.Identifier? && i + 1 < |was| && IsContinuation(was[i + 1].rule) {
      assert was[i..][2..] == now[i + 1..];
      assert was[i..][1] == was[i + 1];
      assert now[..i + 1] == was[..i] + [now[i]];
    } else {
      assert was[i..][1..] == now[i + 1..];
      assert now[..i + 1] == was[..i] + [was[i]];
    }
  }

  lemma FoldStep(was: seq<Node>, i: nat, now: seq<Node>, j: nat)
    requires i < |was|
    requires if IsOperator(was[i].rule) && i > 0 && !IsToken(was[i - 1].rule) then
        j == i && now == was[..i - 1] + [Adopt(was[i], was[i - 1])] + was[i + 1..]
      else j == i + 1 && now == was
    ensures j <= |now| && Fold(now[..j], now[j..]) == Fold(was[..i], was[i..])
  {
    assert was[i..][0] == was[i] && was[i..][1..] == was[i + 1..];
    if IsOperator(was[i].rule) && i > 0 && !IsToken(was[i - 1].rule) {
      assert was[..i][..i - 1] == was[..i - 1] && was[..i][i - 1] == was[i - 1];
      assert now[..j] == was[..i - 1] + [Adopt(was[i], was[i - 1])] && now[j..] == was[i + 1..];
    } else {
      assert now[..j] == was[..i] + [was[i]] && now[j..] == was[i + 1..];
    }
  }

  method ReorderOperators(node: Node) returns (r: Node)
    ensures r == Reorder(node)
    decreases Size(node)
  {
    var children := node.children;
    if !node.rule.Call? && !node.rule.Intrinsic? {
      children := TakeLeftOperands(children);
      children := AbsorbContinuations(children);
    }
    ArrangeSize(node);
    var i := 0;
    while i < |children|
      invariant i <= |children| == |Arrange(node)|
      invariant forall k :: 0 <= k < i ==> children[k] == Reorder(Arrange(node)[k])
      invariant forall k :: i <= k < |children| ==> children[k] == Arrange(node)[k]
    {
      SizeAt(Arrange(node), i);
      var child := ReorderOperators(children[i]);
      children := children[i := child];
      i := i + 1;
    }
    r := Node(node.rule, node.text, children);
    forall k | 0 <= k < |children|
      ensures children[k] == ReorderAll(Arrange(node))[k]
    {
      ReorderAt(Arrange(node), k);
    }
  }

  // ---- what the reordering keeps ----

  type Leaf = (Rule, string)

  // From left to right, all the nodes but the expressions which hold an operator
  function Word(n: Node): seq<Leaf> { (if IsOperator(n.rule) then [] else [(n.rule, n.text)]) + WordAll(n.children) }

  function WordAll(cs: seq<Node>): seq<Leaf> { if cs == [] then [] else Word(cs[0]) + WordAll(cs[1..]) }

  lemma {:induction false} WordCat(a: seq<Node>, b: seq<Node>)
    ensures WordAll(a + b) == WordAll(a) + WordAll(b)
    decreases |a|
  {
    if a == [] {
      assert a + b == b;
    } else {
      assert (a + b)[1..] == a[1..] + b;
      WordCat(a[1..], b);
    }
  }

  lemma WordOne(n: Node)
    ensures WordAll([n]) == Word(n)
  {
    assert [n][1..] == [];
  }

  // Every node, as many times as it occurs
  function Bag(n: Node): multiset<Leaf> { multiset{(n.rule, n.text)} + BagAll(n.children) }

  function BagAll(cs: seq<Node>): multiset<Leaf> { if cs == [] then multiset{} else Bag(cs[0]) + BagAll(cs[1..]) }

  lemma {:induction false} BagCat(a: seq<Node>, b: seq<Node>)
    ensures BagAll(a + b) == BagAll(a) + BagAll(b)
    decreases |a|
  {
    if a == [] {
      assert a + b == b;
    } else {
      assert (a + b)[1..] == a[1..] + b;
      BagCat(a[1..], b);
    }
  }

  lemma BagOne(n: Node)
    ensures BagAll([n]) == Bag(n)
  {
    assert [n][1..] == [];
  }

  // Both at once, for two lists of nodes
  ghost predicate Same(a: seq<Node>, b: seq<Node>) { WordAll(a) == WordAll(b) && BagAll(a) == BagAll(b) }

  lemma SameCat(a: seq<Node>, a': seq<Node>, b: seq<Node>, b': seq<Node>)
    requires Same(a, a') && Same(b, b')
    ensures Same(a + b, a' + b')
  {
    WordCat(a, b);
    WordCat(a', b');
    BagCat(a, b);
    BagCat(a', b');
  }

  lemma AdoptSame(op: Node, previous: Node)
    requires IsOperator(op.rule)
    ensures Same([Adopt(op, previous)], [previous, op])
  {
    hide WordAll;
    hide BagAll;
    assert [previous, op] == [previous] + [op];
    WordCat([previous], [op]);
    BagCat([previous], [op]);
    WordCat([previous], op.children);
    BagCat([previous], op.children);
    WordOne(previous);
    BagOne(previous);
    WordOne(op);
    BagOne(op);
    WordOne(Adopt(op, previous));
    BagOne(Adopt(op, previous));
  }

  lemma AbsorbedSame(id: Node, next: Node)
    requires !IsOperator(id.rule)
    ensures Same([id.(children := id.children + [next])], [id, next])
  {
    hide WordAll;
    hide BagAll;
    var r := id.(children := id.children + [next]);
    assert [id, next] == [id] + [next];
    WordCat([id], [next]);
    BagCat([id], [next]);
    WordCat(id.children, [next]);
    BagCat(id.children, [next]);
    WordOne(id);
    BagOne(id);
    WordOne(next);
    BagOne(next);
    WordOne(r);
    BagOne(r);
  }

  lemma {:induction false} FoldSame(done: seq<Node>, rest: seq<Node>)
    ensures Same(Fold(done, rest), done + rest)
    decreases |rest|
  {
    hide Same;
    hide Adopt;
    if rest == [] {
      assert done + rest == done;
      SameSelf(done);
    } else if Takes(rest[0], done) {
      var before, previous := done[..|done| - 1], done[|done| - 1];
      var op := Adopt(rest[0], previous);
      FoldSame(before + [op], rest[1..]);
      AdoptSame(rest[0], previous);
      SameSelf(before);
      SameSelf(rest[1..]);
      SameCat(before, before, [op], [previous, rest[0]]);
      SameCat(before + [op], before + [previous, rest[0]], rest[1..], rest[1..]);
      assert before + [previous, rest[0]] + rest[1..] == done + rest;
      SameTrans(Fold(done, rest), before + [op] + rest[1..], done + rest);
    } else {
      FoldSame(done + [rest[0]], rest[1..]);
      assert done + [rest[0]] + rest[1..] == done + rest;
    }
  }

  lemma SameSelf(a: seq<Node>)
    ensures Same(a, a)
  {
  }

  lemma SameTrans(a: seq<Node>, b: seq<Node>, c: seq<Node>)
    requires Same(a, b) && Same(b, c)
    ensures Same(a, c)
  {
  }

  lemma {:induction false} AbsorbSame(cs: seq<Node>)
    ensures Same(Absorb(cs), cs)
    decreases |cs|
  {
    hide Same;
    if cs == [] {
      SameSelf([]);
    } else if cs[0].rule.Identifier? && |cs| > 1 && IsContinuation(cs[1].rule) {
      AbsorbSame(cs[2..]);
      AbsorbedSame(cs[0], cs[1]);
      SameCat([cs[0].(children := cs[0].children + [cs[1]])], [cs[0], cs[1]], Absorb(cs[2..]), cs[2..]);
      assert cs == [cs[0], cs[1]] + cs[2..];
    } else {
      AbsorbSame(cs[1..]);
      SameSelf([cs[0]]);
      SameCat([cs[0]], [cs[0]], Absorb(cs[1..]), cs[1..]);
      assert cs == [cs[0]] + cs[1..];
    }
  }

  lemma ArrangeSame(n: Node)
    ensures Same(Arrange(n), n.children)
  {
    hide Same;
    SameSelf(n.children);
    FoldSame([], n.children);
    assert [] + n.children == n.children;
    AbsorbSame(Fold([], n.children));
    SameTrans(Absorb(Fold([], n.children)), Fold([], n.children), n.children);
  }

  // For every tree: the reordering loses no node and duplicates none, and keeps the identifiers, the operators and
  // the leaves in the order they were written
  lemma {:induction false} TreeConserved(n: Node)
    ensures Word(Reorder(n)) == Word(n)
    ensures Bag(Reorder(n)) == Bag(n)
    decreases Size(n), 0
  {
    ArrangeSize(n);
    ArrangeSame(n);
    AllConserved(Arrange(n));
    hide ReorderAll;
    hide Arrange;
  }

  lemma {:induction false} AllConserved(cs: seq<Node>)
    ensures Same(ReorderAll(cs), cs)
    decreases SizeAll(cs), 1
  {
    if cs != [] {
      TreeConserved(cs[0]);
      AllConserved(cs[1..]);
      hide Reorder;
      assert ReorderAll(cs)[1..] == ReorderAll(cs[1..]);
    }
  }

  // A node of 'cs', or an operator of 'cs' which has taken one node, itself built that way
  ghost predicate Built(n: Node, cs: seq<Node>)
    decreases n
  {
    n in cs || (n.children != [] && Built(n.children[0], cs)
                && exists op :: op in cs && IsOperator(op.rule) && n == Adopt(op, n.children[0]))
  }

  // An operator takes at most one node
  lemma {:induction false} TakesAtMostOne(done: seq<Node>, rest: seq<Node>, cs: seq<Node>)
    requires forall n :: n in done ==> Built(n, cs)
    requires forall n :: n in rest ==> n in cs
    ensures forall n :: n in Fold(done, rest) ==> Built(n, cs)
    decreases |rest|
  {
    if rest != [] {
      if Takes(rest[0], done) {
        var previous := done[|done| - 1];
        var op := Adopt(rest[0], previous);
        assert op.children[0] == previous;
        assert Built(op, cs);
        TakesAtMostOne(done[..|done| - 1] + [op], rest[1..], cs);
      } else {
        TakesAtMostOne(done + [rest[0]], rest[1..], cs);
      }
    }
  }

  // ---- operators become function calls ----

  function Blank(c: char): bool { c == ' ' || c == '\t' || c == '\n' || c == '\r' }

  function TrimRight(s: string): string
    decreases |s|
  {
    if s != "" && Blank(s[|s| - 1]) then TrimRight(s[..|s| - 1]) else s
  }

  const KNOWN: set<string> := {
    "and", "or", "mod", "xor", "not", "+", "++", "-", "--", "*", "/", "^", "<<", ">>", "<=", ">=", "<", ">", "==", "!=",
    "+=", "-=", "*=", "/=", "^=", "()", "[]", "self++", "++self", "self--", "--self" }

  function OperatorName(text: string): string {
    var name := TrimRight(text);
    if name in KNOWN then "^" + name else name
  }

  function Parameter(n: Node): Node { Node(CallParameter, "", [Node(Expr, "", [n])]) }

  function Invoke(name: string, args: seq<Node>): Node
  {
    Node(Identifier, name, [Node(Call, "", args)])
  }

  // lhs <op> rhs
  function ToCall(n: Node): Node
    requires |n.children| == 3
  {
    Invoke(OperatorName(n.children[1].text), [Parameter(n.children[0]), Parameter(n.children[2])])
  }

  // not rhs
  function ToCallNot(n: Node): Node
    requires |n.children| == 2
  {
    Invoke("^not", [Parameter(n.children[1])])
  }

  // <op>= rhs, on the object before it
  function ToMember(n: Node): Node
    requires |n.children| == 2
  {
    var op := n.children[0];
    Node(ExprSubDot, n.text,
         [Node(Identifier, OperatorName(op.text), op.children + [Node(Call, "", [Parameter(n.children[1])])])])
  }

  predicate Transformed(r: Rule) { IsOperator(r) || r.ExprAssignment? }

  function Arity(r: Rule): nat
    requires Transformed(r)
  {
    if IsBinary(r) then 3 else 2
  }

  // Every operator of the tree has its operands
  predicate Shaped(n: Node) {
    && (Transformed(n.rule) ==> |n.children| == Arity(n.rule))
    && forall i :: 0 <= i < |n.children| ==> Shaped(n.children[i])
  }

  predicate AllShaped(cs: seq<Node>) { forall i :: 0 <= i < |cs| ==> Shaped(cs[i]) }

  function Once(n: Node): Node
    requires Shaped(n)
  {
    if IsBinary(n.rule) then ToCall(n)
    else if n.rule.ExprNot? then ToCallNot(n)
    else if n.rule.ExprAssignment? then ToMember(n)
    else n
  }

  function OnceAll(cs: seq<Node>): (r: seq<Node>)
    requires AllShaped(cs)
    ensures |r| == |cs|
    ensures forall i :: 0 <= i < |r| ==> r[i] == Once(cs[i])
  {
    seq(|cs|, i requires 0 <= i < |cs| => Once(cs[i]))
  }

  // One level: the index goes back after an operator, and wraps around before the first one, which ends the loop
  function Level(cs: seq<Node>): (r: seq<Node>)
    requires AllShaped(cs)
    ensures |r| == |cs|
    ensures forall i :: 0 <= i < |r| ==> r[i] == cs[i] || r[i] == Once(cs[i])
  {
    if cs != [] && IsOperator(cs[0].rule) then cs[0 := Once(cs[0])] else OnceAll(cs)
  }

  const U32_SIZE: int := 0x1_0000_0000

  method TransformLevel(nodes: seq<Node>) returns (children: seq<Node>)
    requires AllShaped(nodes) && |nodes| < U32_SIZE - 1
    ensures children == Level(nodes)
  {
    children := nodes;
    var i := 0;
    ghost var seen := 0;
    while i < |children|
      invariant 0 <= i && seen <= |children| == |nodes|
      invariant i <= seen || (i == U32_SIZE - 1 && seen == 1 && IsOperator(nodes[0].rule))
      invariant i <= seen && seen > 0 ==> !IsOperator(nodes[0].rule)
      invariant forall k :: 0 <= k < seen ==> children[k] == Once(nodes[k])
      invariant forall k :: seen <= k < |children| ==> children[k] == nodes[k]
      decreases |children| - seen, if i <= seen then seen - i else 0
    {
      if i == seen {
        seen := seen + 1;
      }
      if IsBinary(children[i].rule) {
        children := children[i := ToCall(children[i])];
        i := (i - 1) % U32_SIZE;
      } else if children[i].rule.ExprAssignment? {
        children := children[i := ToMember(children[i])];
        i := i + 1;
      } else if children[i].rule.ExprNot? {
        children := children[i := ToCallNot(children[i])];
        i := (i - 1) % U32_SIZE;
      } else {
        i := i + 1;
      }
    }
  }

  // The number of operators left
  function Ops(n: Node): nat { (if Transformed(n.rule) then 1 else 0) + OpsAll(n.children) }

  function OpsAll(cs: seq<Node>): nat { if cs == [] then 0 else Ops(cs[0]) + OpsAll(cs[1..]) }

  lemma {:induction false} OpsAt(cs: seq<Node>, i: nat)
    requires i < |cs|
    ensures Ops(cs[i]) <= OpsAll(cs)
    decreases |cs|
  {
    if i > 0 {
      OpsAt(cs[1..], i - 1);
    }
  }

  lemma {:induction false} OpsCat(a: seq<Node>, b: seq<Node>)
    ensures OpsAll(a + b) == OpsAll(a) + OpsAll(b)
    decreases |a|
  {
    if a == [] {
      assert a + b == b;
    } else {
      assert (a + b)[1..] == a[1..] + b;
      OpsCat(a[1..], b);
    }
  }

  lemma OpsOne(n: Node)
    ensures OpsAll([n]) == Ops(n)
  {
    assert [n][1..] == [];
  }

  lemma OpsTwo(a: Node, b: Node)
    ensures OpsAll([a, b]) == Ops(a) + Ops(b)
  {
    assert [a, b][1..] == [b];
    OpsOne(b);
  }

  lemma OpsThree(a: Node, b: Node, c: Node)
    ensures OpsAll([a, b, c]) == Ops(a) + Ops(b) + Ops(c)
  {
    assert [a, b, c][1..] == [b, c];
    OpsTwo(b, c);
  }

  lemma OpsParameter(n: Node)
    ensures Ops(Parameter(n)) == Ops(n)
  {
    OpsOne(n);
    OpsOne(Node(Expr, "", [n]));
  }

  lemma OpsInvoke(name: string, args: seq<Node>)
    ensures Ops(Invoke(name, args)) == OpsAll(args)
  {
    OpsOne(Node(Call, "", args));
  }

  lemma OnceOps(n: Node)
    requires Shaped(n)
    ensures Transformed(n.rule) ==> Ops(Once(n)) < Ops(n)
    ensures !Transformed(n.rule) ==> Once(n) == n
    ensures !Transformed(Once(n).rule)
  {
    hide Ops;
    hide OpsAll;
    hide Shaped;
    OpsUnfold(n);
    ArityIs(n);
    var cs := n.children;
    if IsBinary(n.rule) {
      assert cs == [cs[0], cs[1], cs[2]];
      OpsThree(cs[0], cs[1], cs[2]);
      OpsParameter(cs[0]);
      OpsParameter(cs[2]);
      OpsTwo(Parameter(cs[0]), Parameter(cs[2]));
      OpsInvoke(OperatorName(cs[1].text), [Parameter(cs[0]), Parameter(cs[2])]);
    } else if n.rule.ExprNot? {
      assert cs == [cs[0], cs[1]];
      OpsTwo(cs[0], cs[1]);
      OpsParameter(cs[1]);
      OpsOne(Parameter(cs[1]));
      OpsInvoke("^not", [Parameter(cs[1])]);
    } else if n.rule.ExprAssignment? {
      assert cs == [cs[0], cs[1]];
      OpsTwo(cs[0], cs[1]);
      var call := Node(Call, "", [Parameter(cs[1])]);
      var id := Node(Identifier, OperatorName(cs[0].text), cs[0].children + [call]);
      OpsParameter(cs[1]);
      OpsOne(Parameter(cs[1]));
      OpsUnfold(call);
      OpsOne(call);
      OpsCat(cs[0].children, [call]);
      OpsUnfold(cs[0]);
      OpsUnfold(id);
      OpsOne(id);
      OpsUnfold(Once(n));
    }
  }

  lemma OpsUnfold(n: Node)
    ensures Ops(n) == (if Transformed(n.rule) then 1 else 0) + OpsAll(n.children)
  {
  }

  lemma ArityIs(n: Node)
    requires Shaped(n)
    ensures Transformed(n.rule) ==> |n.children| == Arity(n.rule)
    ensures AllShaped(n.children)
  {
  }

  lemma ShapedParameter(n: Node)
    requires Shaped(n)
    ensures Shaped(Parameter(n))
  {
    assert Shaped(Node(Expr, "", [n]));
  }

  lemma ShapedInvoke(name: string, args: seq<Node>)
    requires AllShaped(args)
    ensures Shaped(Invoke(name, args))
  {
    assert Shaped(Node(Call, "", args));
  }

  lemma OnceShaped(n: Node)
    requires Shaped(n)
    ensures Shaped(Once(n))
  {
    ArityIs(n);
    var cs := n.children;
    if IsBinary(n.rule) {
      ShapedParameter(cs[0]);
      ShapedParameter(cs[2]);
      ShapedInvoke(OperatorName(cs[1].text), [Parameter(cs[0]), Parameter(cs[2])]);
    } else if n.rule.ExprNot? {
      ShapedParameter(cs[1]);
      ShapedInvoke("^not", [Parameter(cs[1])]);
    } else if n.rule.ExprAssignment? {
      ShapedParameter(cs[1]);
      var call := Node(Call, "", [Parameter(cs[1])]);
      assert Shaped(call);
      ArityIs(cs[0]);
      assert Shaped(Node(Identifier, OperatorName(cs[0].text), cs[0].children + [call]));
    }
  }

  lemma LevelGoesDown(n: Node, i: nat)
    requires Shaped(n) && i < |n.children|
    ensures AllShaped(n.children) && Shaped(Level(n.children)[i])
    ensures var c := Level(n.children)[i];
      Ops(c) < Ops(n) || (Ops(c) == Ops(n) && Size(c) < Size(n))
  {
    hide Ops;
    hide Size;
    ArityIs(n);
    var was, c := n.children[i], Level(n.children)[i];
    OpsAt(n.children, i);
    OpsUnfold(n);
    OnceOps(was);
    OnceShaped(was);
    SizeBelow(n, i);
  }

  lemma SizeBelow(n: Node, i: nat)
    requires i < |n.children|
    ensures Size(n.children[i]) < Size(n)
  {
    SizeAt(n.children, i);
  }

  function Transform(n: Node): Node
    requires Shaped(n)
    decreases Ops(n), Size(n)
  {
    ArityIs(n);
    Node(n.rule, n.text,
         seq(|n.children|, i requires 0 <= i < |n.children| =>
           (LevelGoesDown(n, i); Transform(Level(n.children)[i]))))
  }

  lemma TransformAt(n: Node, i: nat)
    requires Shaped(n) && i < |n.children|
    ensures AllShaped(n.children) && Shaped(Level(n.children)[i])
    ensures |Transform(n).children| == |n.children|
    ensures Transform(n).children[i] == Transform(Level(n.children)[i])
  {
    ArityIs(n);
    LevelGoesDown(n, i);
  }

  // The loop leaves no operator on a level, unless an operator comes first and is not alone: the index has wrapped
  // around, and what follows is left as it was
  lemma LevelIsComplete(cs: seq<Node>)
    requires AllShaped(cs)
    ensures (forall i :: 0 <= i < |cs| ==> !Transformed(Level(cs)[i].rule))
      <==> !(cs != [] && IsOperator(cs[0].rule) && exists i :: 0 < i < |cs| && Transformed(cs[i].rule))
  {
    forall i | 0 <= i < |cs|
      ensures !Transformed(Once(cs[i]).rule)
    {
      OnceOps(cs[i]);
    }
    if cs != [] && IsOperator(cs[0].rule) {
      forall i | 0 < i < |cs|
        ensures Level(cs)[i] == cs[i]
      {
      }
    }
  }

  // The children of a node are counted with 32 bits, also once an assignment was rewritten
  predicate Narrow(n: Node) {
    && |n.children| < U32_SIZE - 1
    && (n.rule.ExprAssignment? && n.children != [] ==> |n.children[0].children| < U32_SIZE - 2)
    && forall i :: 0 <= i < |n.children| ==> Narrow(n.children[i])
  }

  lemma NarrowParameter(n: Node)
    requires Narrow(n)
    ensures Narrow(Parameter(n))
  {
    assert Narrow(Node(Expr, "", [n]));
  }

  lemma NarrowInvoke(name: string, args: seq<Node>)
    requires |args| < 3 && forall i :: 0 <= i < |args| ==> Narrow(args[i])
    ensures Narrow(Invoke(name, args))
  {
    assert Narrow(Node(Call, "", args));
  }

  lemma OnceNarrow(n: Node)
    requires Shaped(n) && Narrow(n)
    ensures Narrow(Once(n))
  {
    ArityIs(n);
    var cs := n.children;
    if IsBinary(n.rule) {
      NarrowParameter(cs[0]);
      NarrowParameter(cs[2]);
      NarrowInvoke(OperatorName(cs[1].text), [Parameter(cs[0]), Parameter(cs[2])]);
    } else if n.rule.ExprNot? {
      NarrowParameter(cs[1]);
      NarrowInvoke("^not", [Parameter(cs[1])]);
    } else if n.rule.ExprAssignment? {
      NarrowParameter(cs[1]);
      var call := Node(Call, "", [Parameter(cs[1])]);
      assert Narrow(call);
      var id := Node(Identifier, OperatorName(cs[0].text), cs[0].children + [call]);
      assert Narrow(cs[0]);
      assert Narrow(id);
    }
  }

  method TransformOperators(node: Node) returns (r: Node)
    requires Shaped(node) && Narrow(node)
    ensures r == Transform(node)
    decreases Ops(node), Size(node)
  {
    ArityIs(node);
    var children := TransformLevel(node.children);
    var i := 0;
    while i < |children|
      invariant i <= |children| == |node.children|
      invariant forall k :: 0 <= k < i ==> children[k] == Transform(node).children[k]
      invariant forall k :: i <= k < |children| ==> children[k] == Level(node.children)[k]
    {
      LevelGoesDown(node, i);
      OnceNarrow(node.children[i]);
      TransformAt(node, i);
      var child := TransformOperators(children[i]);
      children := children[i := child];
      i := i + 1;
    }
    r := Node(node.rule, node.text, children);
  }
}
