// Chains of operators: their normalisation keeps their meaning, and normalising again changes nothing.
module Chains {
  import opened Normalize

  // ---- what is written ----

  // Operators associate to the left. An operand of an operator may be a chain of operators of a higher precedence.
  datatype Chain =
    | One(operand: Operand)
    | More(left: Chain, op: Operator, right: Chain)

  datatype Operator = Operator(rule: Rule, token: Rule, text: string)

  datatype Operand =
    | Leaf(node: Node)                    // anything already normalised
    | Negated(text: string, chain: Chain)

  // A node which both passes leave as it is, and which is no part of an operator
  ghost predicate Settled(n: Node) {
    && Shaped(n) && !Transformed(n.rule) && !IsToken(n.rule)
    && Reorder(n) == n && Transform(n) == n
  }

  // The expressions of the grammar with an operator between two operands, and what each one begins with
  predicate IsOperation(op: Operator) {
    op.rule in {ExprAdd, ExprStream, ExprComparison, ExprLogic, ExprLogicAnd, ExprFactor, ExprPower}
    && op.token in {OperatorAdd, OperatorStream, OperatorComparison, OperatorLogic, OperatorLogicAnd, OperatorFactor,
                    OperatorPower}
  }

  ghost predicate Proper(c: Chain) {
    match c
    case One(Leaf(n)) => Settled(n)
    case One(Negated(_, c1)) => Proper(c1)
    case More(l, op, r) => Proper(l) && Proper(r) && IsOperation(op)
  }

  function Token(op: Operator): Node { Node(op.token, op.text, []) }

  function NotToken(text: string): Node { Node(OperatorNot, text, []) }

  // The siblings made by the parser: the first operand, then one node for each operator, with its right operand
  function Flatten(c: Chain): seq<Node> {
    match c
    case One(Leaf(n)) => [n]
    case One(Negated(text, c1)) => [Node(ExprNot, "", [NotToken(text)] + Flatten(c1))]
    case More(l, op, r) => Flatten(l) + [Node(op.rule, "", [Token(op)] + Flatten(r))]
  }

  // ---- what it means ----

  // The value of an operand is an unknown, and operators are any functions
  datatype Term = Atom(node: Node) | Apply(name: string, args: seq<Term>)

  // A call of an operator
  predicate IsCall(n: Node, arity: nat) {
    && n.rule.Identifier? && n.text != "" && n.text[0] == '^'
    && |n.children| == 1 && n.children[0].rule.Call? && |n.children[0].children| == arity
    && forall i :: 0 <= i < arity ==> IsParameter(n.children[0].children[i])
  }

  predicate IsParameter(n: Node) {
    n.rule.CallParameter? && |n.children| == 1 && n.children[0].rule.Expr? && |n.children[0].children| == 1
  }

  function Argument(n: Node): Node
    requires IsParameter(n)
  {
    n.children[0].children[0]
  }

  function Denote(n: Node): Term {
    if IsCall(n, 1) then Apply(n.text, [Denote(Argument(n.children[0].children[0]))])
    else if IsCall(n, 2) then
      Apply(n.text, [Denote(Argument(n.children[0].children[0])), Denote(Argument(n.children[0].children[1]))])
    else Atom(n)
  }

  // What is written: operators with their text
  datatype Written = Unknown(node: Node) | Operation(text: string, args: seq<Written>)

  function Value(c: Chain): Written {
    match c
    case One(Leaf(n)) => Unknown(n)
    case One(Negated(_, c1)) => Operation("not", [Value(c1)])
    case More(l, op, r) => Operation(op.text, [Value(l), Value(r)])
  }

  const BLANKS: set<char> := {' ', '\t', '\n', '\r'}

  // The operators of the grammar which take operands
  const OPERATORS: set<string> := {
    "+", "-", "*", "/", "mod", "xor", "^", "<<", ">>", "and", "or", "not", "!=", "==", "<", ">", "<=", ">=" }

  // 'word' is the text without what blanks it may end with
  ghost predicate Strips(text: string, word: string) {
    && word <= text
    && (forall i :: |word| <= i < |text| ==> text[i] in BLANKS)
    && (word != "" ==> word[|word| - 1] !in BLANKS)
  }

  ghost predicate IsOperatorText(text: string) { exists w :: w in OPERATORS && Strips(text, w) }

  // Each operation is the call of the function whose name is a caret and the operator, with the same operands
  ghost predicate Means(t: Term, w: Written)
    decreases w
  {
    match w
    case Unknown(n) => t == Denote(n)
    case Operation(text, args) =>
      && t.Apply? && |t.args| == |args|
      && (exists word :: Strips(text, word) && t.name == "^" + word)
      && forall i :: 0 <= i < |args| ==> Means(t.args[i], args[i])
  }

  lemma {:induction false} TrimStrips(text: string)
    ensures Strips(text, TrimRight(text))
    decreases |text|
  {
    if text != "" && Blank(text[|text| - 1]) {
      TrimStrips(text[..|text| - 1]);
    }
  }

  lemma StripsOne(text: string, a: string, b: string)
    requires Strips(text, a) && Strips(text, b)
    ensures a == b
  {
    assert b != "" ==> b[|b| - 1] == text[|b| - 1];
    assert a != "" ==> a[|a| - 1] == text[|a| - 1];
  }

  lemma CallName(text: string)
    requires IsOperatorText(text)
    ensures TrimRight(text) in OPERATORS && Strips(text, TrimRight(text)) && OperatorName(text) == "^" + TrimRight(text)
  {
    var w :| w in OPERATORS && Strips(text, w);
    TrimStrips(text);
    StripsOne(text, w, TrimRight(text));
  }

  // Different operators give different calls
  lemma NamesDiffer(l: Chain, r: Chain, op: Operator, op': Operator, w: string, w': string)
    requires Strips(op.text, w) && Strips(op'.text, w') && w in OPERATORS && w' in OPERATORS
    ensures Called(More(l, op, r)).text == Called(More(l, op', r)).text <==> w == w'
    ensures Called(More(l, op, r)).text == "^" + w
  {
    CallName(op.text);
    CallName(op'.text);
    StripsOne(op.text, w, TrimRight(op.text));
    StripsOne(op'.text, w', TrimRight(op'.text));
    hide TrimRight;
    hide OperatorName;
    hide Called;
    CalledText(l, op, r);
    CalledText(l, op', r);
    assert ("^" + w)[1..] == w && ("^" + w')[1..] == w';
  }

  lemma CalledText(l: Chain, op: Operator, r: Chain)
    ensures Called(More(l, op, r)).text == OperatorName(op.text)
  {
    hide OperatorName;
  }

  // ---- the two passes ----

  // Once the operators of one level have taken their left operand
  function Half(c: Chain): Node {
    match c
    case One(Leaf(n)) => n
    case One(Negated(text, c1)) => Node(ExprNot, "", [NotToken(text)] + Flatten(c1))
    case More(l, op, r) => Node(op.rule, "", [Half(l), Token(op)] + Flatten(r))
  }

  function Nest(c: Chain): Node {
    match c
    case One(Leaf(n)) => n
    case One(Negated(text, c1)) => Node(ExprNot, "", [NotToken(text), Nest(c1)])
    case More(l, op, r) => Node(op.rule, "", [Nest(l), Token(op), Nest(r)])
  }

  function Called(c: Chain): Node {
    match c
    case One(Leaf(n)) => n
    case One(Negated(_, c1)) => Invoke("^not", [Parameter(Called(c1))])
    case More(l, op, r) => Invoke(OperatorName(op.text), [Parameter(Called(l)), Parameter(Called(r))])
  }

  // ---- the reordering ----

  lemma HalfRule(c: Chain)
    requires Proper(c)
    ensures !IsToken(Half(c).rule)
    ensures Half(c).rule.Identifier? ==> c.One? && c.operand.Leaf?
  {
  }

  lemma {:induction false} FoldCat(done: seq<Node>, a: seq<Node>, b: seq<Node>)
    ensures Fold(done, a + b) == Fold(Fold(done, a), b)
    decreases |a|
  {
    if a == [] {
      assert a + b == b;
    } else {
      assert (a + b)[0] == a[0] && (a + b)[1..] == a[1..] + b;
      if Takes(a[0], done) {
        FoldCat(done[..|done| - 1] + [Adopt(a[0], done[|done| - 1])], a[1..], b);
      } else {
        FoldCat(done + [a[0]], a[1..], b);
      }
    }
  }

  lemma FoldOne(done: seq<Node>, n: Node)
    ensures Fold(done, [n])
         == if Takes(n, done) then done[..|done| - 1] + [Adopt(n, done[|done| - 1])] else done + [n]
  {
    assert [n][1..] == [];
  }

  // At the beginning or right after a token, the whole chain becomes one node
  lemma {:induction false} FoldChain(done: seq<Node>, c: Chain)
    requires Proper(c) && (done == [] || IsToken(done[|done| - 1].rule))
    ensures Fold(done, Flatten(c)) == done + [Half(c)]
    decreases c
  {
    hide *;
    match c
    case One(o) =>
      OneFlat(o);
      FoldOne(done, Half(c));
      NotTaken(Half(c), done);
    case More(l, op, r) =>
      MoreFlat(l, op, r);
      var last := Node(op.rule, "", [Token(op)] + Flatten(r));
      FoldCat(done, Flatten(l), [last]);
      FoldChain(done, l);
      HalfRule(l);
      OperationIs(op);
      FoldOne(done + [Half(l)], last);
      Taken(last, done, Half(l));
  }

  lemma NotTaken(n: Node, done: seq<Node>)
    requires done == [] || IsToken(done[|done| - 1].rule)
    ensures !Takes(n, done)
  {
  }

  lemma Taken(op: Node, done: seq<Node>, previous: Node)
    requires IsBinary(op.rule) && !IsToken(previous.rule)
    ensures Takes(op, done + [previous])
    ensures Adopt(op, previous) == Node(op.rule, op.text, [previous] + op.children)
  {
  }

  lemma OperationIs(op: Operator)
    requires IsOperation(op)
    ensures IsBinary(op.rule) && IsToken(op.token)
  {
  }

  lemma OneFlat(o: Operand)
    ensures Flatten(One(o)) == [Half(One(o))]
  {
  }

  lemma MoreFlat(l: Chain, op: Operator, r: Chain)
    requires Proper(More(l, op, r))
    ensures Proper(l) && Proper(r) && IsOperation(op)
    ensures Flatten(More(l, op, r)) == Flatten(l) + [Node(op.rule, "", [Token(op)] + Flatten(r))]
    ensures Half(More(l, op, r)) == Node(op.rule, "", [Half(l)] + ([Token(op)] + Flatten(r)))
  {
    hide Settled;
    assert [Half(l)] + ([Token(op)] + Flatten(r)) == [Half(l), Token(op)] + Flatten(r);
  }

  lemma AbsorbOne(n: Node)
    ensures Absorb([n]) == [n]
  {
    assert [n][1..] == [];
  }

  lemma AbsorbTwo(a: Node, b: Node)
    requires IsToken(a.rule)
    ensures Absorb([a, b]) == [a, b]
  {
    assert [a, b][1..] == [b];
    AbsorbOne(b);
  }

  lemma AbsorbThree(a: Node, b: Node, c: Node)
    requires IsToken(b.rule)
    ensures Absorb([a, b, c]) == [a, b, c]
  {
    assert [a, b, c][1..] == [b, c];
    AbsorbTwo(b, c);
  }

  lemma ReorderOne(n: Node)
    ensures ReorderAll([n]) == [Reorder(n)]
  {
    assert [n][1..] == [];
  }

  lemma ReorderTwo(a: Node, b: Node)
    ensures ReorderAll([a, b]) == [Reorder(a), Reorder(b)]
  {
    hide Reorder;
    assert [a, b][1..] == [b];
    ReorderOne(b);
  }

  lemma ReorderThree(a: Node, b: Node, c: Node)
    ensures ReorderAll([a, b, c]) == [Reorder(a), Reorder(b), Reorder(c)]
  {
    hide Reorder;
    assert [a, b, c][1..] == [b, c];
    ReorderTwo(b, c);
  }

  lemma ReorderIs(n: Node, cs: seq<Node>)
    requires Arrange(n) == cs
    ensures Reorder(n) == Node(n.rule, n.text, ReorderAll(cs))
  {
  }

  lemma ReorderToken(n: Node)
    requires n.children == []
    ensures Reorder(n) == n
  {
    assert Arrange(n) == [];
  }

  lemma ArrangeIs(n: Node)
    requires !n.rule.Call? && !n.rule.Intrinsic?
    ensures Arrange(n) == Absorb(Fold([], n.children))
  {
    hide Fold;
    hide Absorb;
  }

  lemma ArrangeNegated(text: string, c: Chain)
    requires Proper(c)
    ensures Arrange(Half(One(Negated(text, c)))) == [NotToken(text), Half(c)]
  {
    hide Fold;
    hide Absorb;
    hide Arrange;
    hide Flatten;
    NegatedUnfold(text, c);
    ArrangeIs(Half(One(Negated(text, c))));
    FoldCat([], [NotToken(text)], Flatten(c));
    FoldOne([], NotToken(text));
    FoldChain([NotToken(text)], c);
    AbsorbTwo(NotToken(text), Half(c));
    assert [] + [NotToken(text)] == [NotToken(text)];
    assert [NotToken(text)] + [Half(c)] == [NotToken(text), Half(c)];
  }

  lemma ArrangeMore(l: Chain, op: Operator, r: Chain)
    requires Proper(l) && Proper(r) && IsOperation(op)
    ensures Arrange(Half(More(l, op, r))) == [Half(l), Token(op), Half(r)]
  {
    hide Fold;
    hide Absorb;
    hide Arrange;
    hide Flatten;
    HalfUnfold(l, op, r);
    HalfRule(l);
    ArrangeIs(Half(More(l, op, r)));
    FoldCat([], [Half(l), Token(op)], Flatten(r));
    assert [Half(l), Token(op)] == [Half(l)] + [Token(op)];
    FoldCat([], [Half(l)], [Token(op)]);
    FoldOne([], Half(l));
    assert [] + [Half(l)] == [Half(l)];
    FoldOne([Half(l)], Token(op));
    FoldChain([Half(l), Token(op)], r);
    AbsorbThree(Half(l), Token(op), Half(r));
    assert [Half(l), Token(op)] + [Half(r)] == [Half(l), Token(op), Half(r)];
  }

  lemma NegatedUnfold(text: string, c: Chain)
    ensures Half(One(Negated(text, c))) == Node(ExprNot, "", [NotToken(text)] + Flatten(c))
  {
  }

  lemma HalfUnfold(l: Chain, op: Operator, r: Chain)
    ensures Half(More(l, op, r)) == Node(op.rule, "", [Half(l), Token(op)] + Flatten(r))
  {
  }

  lemma {:induction false} ReorderHalf(c: Chain)
    requires Proper(c)
    ensures Reorder(Half(c)) == Nest(c)
    decreases c
  {
    hide Reorder;
    hide ReorderAll;
    hide Arrange;
    match c
    case One(Leaf(n)) =>
    case One(Negated(text, c1)) =>
      ReorderHalf(c1);
      ArrangeNegated(text, c1);
      ReorderIs(Half(c), [NotToken(text), Half(c1)]);
      ReorderTwo(NotToken(text), Half(c1));
      ReorderToken(NotToken(text));
    case More(l, op, r) =>
      ReorderHalf(l);
      ReorderHalf(r);
      ArrangeMore(l, op, r);
      ReorderIs(Half(c), [Half(l), Token(op), Half(r)]);
      ReorderThree(Half(l), Token(op), Half(r));
      ReorderToken(Token(op));
  }

  lemma ReorderChain(c: Chain)
    requires Proper(c)
    ensures Reorder(Node(Expr, "", Flatten(c))) == Node(Expr, "", [Nest(c)])
  {
    hide Reorder;
    hide ReorderAll;
    FoldChain([], c);
    AbsorbOne(Half(c));
    assert [] + [Half(c)] == [Half(c)];
    ReorderIs(Node(Expr, "", Flatten(c)), [Half(c)]);
    ReorderOne(Half(c));
    ReorderHalf(c);
  }

  // ---- the function calls ----

  lemma {:induction false} NestShaped(c: Chain)
    requires Proper(c)
    ensures Shaped(Nest(c))
    decreases c
  {
    match c
    case One(Leaf(n)) =>
    case One(Negated(text, c1)) =>
      NestShaped(c1);
      assert Shaped(NotToken(text));
    case More(l, op, r) =>
      NestShaped(l);
      NestShaped(r);
      assert Shaped(Token(op));
  }

  lemma {:induction false} CalledShaped(c: Chain)
    requires Proper(c)
    ensures Shaped(Called(c))
    decreases c
  {
    hide Shaped;
    match c
    case One(Leaf(n)) =>
      SettledShaped(n);
    case One(Negated(text, c1)) =>
      CalledShaped(c1);
      ShapedParameter(Called(c1));
      ShapedInvoke("^not", [Parameter(Called(c1))]);
    case More(l, op, r) =>
      CalledShaped(l);
      CalledShaped(r);
      ShapedParameter(Called(l));
      ShapedParameter(Called(r));
      ShapedInvoke(OperatorName(op.text), [Parameter(Called(l)), Parameter(Called(r))]);
  }

  lemma SettledShaped(n: Node)
    requires Settled(n)
    ensures Shaped(n)
  {
  }

  // A node with a single child which is no operator, or is one
  lemma TransformOne(rule: Rule, text: string, n: Node)
    requires Shaped(n) && Shaped(Node(rule, text, [n])) && Shaped(Once(n))
    ensures Transform(Node(rule, text, [n])) == Node(rule, text, [Transform(Once(n))])
  {
    hide Shaped;
    hide Transform;
    var p := Node(rule, text, [n]);
    TransformAt(p, 0);
    TransformKeeps(p);
    LevelOne(n);
  }

  lemma LevelOne(n: Node)
    requires Shaped(n)
    ensures AllShaped([n]) && Level([n]) == [Once(n)]
  {
  }

  lemma TransformKeeps(n: Node)
    requires Shaped(n)
    ensures Transform(n).rule == n.rule && Transform(n).text == n.text && |Transform(n).children| == |n.children|
  {
  }

  lemma ParameterTransforms(n: Node, r: Node)
    requires Shaped(n) && Shaped(Node(Expr, "", [n])) && Transform(Node(Expr, "", [n])) == Node(Expr, "", [r])
    ensures Shaped(Parameter(n)) && Transform(Parameter(n)) == Parameter(r)
  {
    hide Transform;
    ShapedParameter(n);
    TransformOne(CallParameter, "", Node(Expr, "", [n]));
  }

  lemma InvokeTransforms(name: string, args: seq<Node>, args': seq<Node>)
    requires AllShaped(args) && |args| == |args'| && args != []
    requires forall i :: 0 <= i < |args| ==> args[i].rule.CallParameter? && Transform(args[i]) == args'[i]
    ensures Shaped(Invoke(name, args)) && Transform(Invoke(name, args)) == Invoke(name, args')
  {
    hide Transform;
    hide Shaped;
    ShapedInvoke(name, args);
    ShapedCall(args);
    var call := Node(Call, "", args);
    TransformOne(Identifier, name, call);
    TransformKeeps(call);
    LevelSame(args);
    forall i | 0 <= i < |args|
      ensures Transform(call).children[i] == args'[i]
    {
      TransformAt(call, i);
    }
    assert Transform(call).children == args';
  }

  lemma LevelSame(args: seq<Node>)
    requires AllShaped(args) && forall i :: 0 <= i < |args| ==> !Transformed(args[i].rule)
    ensures Level(args) == args
  {
  }

  lemma ShapedCall(args: seq<Node>)
    requires AllShaped(args)
    ensures Shaped(Node(Call, "", args))
  {
  }

  lemma ShapedExpr(n: Node)
    requires Shaped(n)
    ensures Shaped(Node(Expr, "", [n]))
  {
  }

  // An expression made of one nest of operators
  lemma {:induction false} TransformNest(c: Chain)
    requires Proper(c)
    ensures Shaped(Node(Expr, "", [Nest(c)]))
    ensures Transform(Node(Expr, "", [Nest(c)])) == Node(Expr, "", [Called(c)])
    decreases c
  {
    hide Transform;
    hide Shaped;
    NestShaped(c);
    ShapedExpr(Nest(c));
    OnceShaped(Nest(c));
    TransformOne(Expr, "", Nest(c));
    match c
    case One(Leaf(n)) =>
    case One(Negated(text, c1)) =>
      NestShaped(c1);
      TransformNest(c1);
      ParameterTransforms(Nest(c1), Called(c1));
      InvokeTransforms("^not", [Parameter(Nest(c1))], [Parameter(Called(c1))]);
    case More(l, op, r) =>
      NestShaped(l);
      NestShaped(r);
      TransformNest(l);
      TransformNest(r);
      ParameterTransforms(Nest(l), Called(l));
      ParameterTransforms(Nest(r), Called(r));
      InvokeTransforms(OperatorName(op.text), [Parameter(Nest(l)), Parameter(Nest(r))],
                       [Parameter(Called(l)), Parameter(Called(r))]);
  }

  // ---- the result is settled ----

  lemma ExprSettled(rule: Rule, text: string, n: Node)
    requires Settled(n) && !Transformed(rule) && !IsToken(rule)
    ensures Settled(Node(rule, text, [n]))
  {
    var p := Node(rule, text, [n]);
    WrapReorders(p, n);
    hide Reorder;
    hide Transform;
    assert Shaped(p);
    TransformOne(rule, text, n);
  }

  lemma WrapReorders(p: Node, n: Node)
    requires p.children == [n] && Reorder(n) == n
    ensures Reorder(p) == p
  {
    hide Reorder;
    hide ReorderAll;
    FoldOne([], n);
    AbsorbOne(n);
    assert [] + [n] == [n];
    ReorderIs(p, [n]);
    ReorderOne(n);
  }

  lemma {:induction false} ReorderEach(cs: seq<Node>)
    requires forall i :: 0 <= i < |cs| ==> Reorder(cs[i]) == cs[i]
    ensures ReorderAll(cs) == cs
    decreases |cs|
  {
    if cs != [] {
      ReorderEach(cs[1..]);
    }
  }

  lemma InvokeSettled(name: string, args: seq<Node>)
    requires forall i :: 0 <= i < |args| ==> Settled(args[i]) && args[i].rule.CallParameter?
    requires args != []
    ensures Settled(Invoke(name, args))
  {
    var call := Node(Call, "", args);
    hide Reorder;
    hide ReorderAll;
    hide Transform;
    hide Shaped;
    forall i | 0 <= i < |args|
      ensures Shaped(args[i]) && Reorder(args[i]) == args[i] && Transform(args[i]) == args[i]
    {
    }
    InvokeTransforms(name, args, args);
    ReorderEach(args);
    ReorderIs(call, args);
    WrapReorders(Invoke(name, args), call);
  }

  lemma {:induction false} CalledSettled(c: Chain)
    requires Proper(c)
    ensures Settled(Called(c))
    decreases c
  {
    hide Settled;
    match c
    case One(Leaf(n)) =>
    case One(Negated(text, c1)) =>
      CalledSettled(c1);
      ParameterSettled(Called(c1));
      InvokeSettled("^not", [Parameter(Called(c1))]);
    case More(l, op, r) =>
      CalledSettled(l);
      CalledSettled(r);
      ParameterSettled(Called(l));
      ParameterSettled(Called(r));
      InvokeSettled(OperatorName(op.text), [Parameter(Called(l)), Parameter(Called(r))]);
  }

  lemma ParameterSettled(n: Node)
    requires Settled(n)
    ensures Settled(Parameter(n))
  {
    hide Settled;
    ExprSettled(Expr, "", n);
    ExprSettled(CallParameter, "", Node(Expr, "", [n]));
  }

  // ---- the meaning ----

  // Operators are those of the language: their names get the prefix which tells them from functions
  ghost predicate KnownOperators(c: Chain) {
    match c
    case One(Leaf(_)) => true
    case One(Negated(_, c1)) => KnownOperators(c1)
    case More(l, op, r) => KnownOperators(l) && KnownOperators(r) && IsOperatorText(op.text)
  }

  lemma {:induction false} CalledMeans(c: Chain)
    requires KnownOperators(c)
    ensures Means(Denote(Called(c)), Value(c))
    decreases c
  {
    hide Denote;
    hide Means;
    hide Strips;
    match c
    case One(Leaf(n)) => LeafMeans(n);
    case One(Negated(text, c1)) =>
      CalledMeans(c1);
      UnaryMeans(Called(c1));
      NotMeans(Denote(Called(c1)), Value(c1));
    case More(l, op, r) =>
      CalledMeans(l);
      CalledMeans(r);
      CallName(op.text);
      BinaryMeans(OperatorName(op.text), Called(l), Called(r));
      OperationMeans(op.text, TrimRight(op.text), Denote(Called(l)), Denote(Called(r)), Value(l), Value(r));
  }

  lemma LeafMeans(n: Node)
    ensures Means(Denote(n), Unknown(n))
  {
  }

  lemma NotMeans(t: Term, w: Written)
    requires Means(t, w)
    ensures Means(Apply("^not", [t]), Operation("not", [w]))
  {
    assert Strips("not", "not");
    assert "^" + "not" == "^not";
  }

  lemma OperationMeans(text: string, word: string, a: Term, b: Term, x: Written, y: Written)
    requires Strips(text, word) && Means(a, x) && Means(b, y)
    ensures Means(Apply("^" + word, [a, b]), Operation(text, [x, y]))
  {
    hide Strips;
  }

  lemma UnaryMeans(a: Node)
    ensures Denote(Invoke("^not", [Parameter(a)])) == Apply("^not", [Denote(a)])
  {
    var n := Invoke("^not", [Parameter(a)]);
    assert IsParameter(Parameter(a));
    assert IsCall(n, 1);
  }

  lemma BinaryMeans(name: string, a: Node, b: Node)
    requires name != "" && name[0] == '^'
    ensures Denote(Invoke(name, [Parameter(a), Parameter(b)])) == Apply(name, [Denote(a), Denote(b)])
  {
    var n := Invoke(name, [Parameter(a), Parameter(b)]);
    assert IsParameter(Parameter(a)) && IsParameter(Parameter(b));
    assert IsCall(n, 2);
  }

  function Normalized(n: Node): Node
    requires Shaped(Reorder(n))
  {
    Transform(Reorder(n))
  }

  // For every chain, however nested: normalising the siblings made by the parser gives one tree of calls, whose value
  // is the left-associative value of the chain. Normalising again changes nothing, so that the result is itself a
  // proper operand of any other chain.
  lemma ChainNormalized(c: Chain)
    requires Proper(c) && KnownOperators(c)
    ensures var n := Node(Expr, "", Flatten(c));
      && Shaped(Reorder(n)) && |Normalized(n).children| == 1
      && Means(Denote(Normalized(n).children[0]), Value(c))
      && Settled(Normalized(n)) && Settled(Normalized(n).children[0])
  {
    var n := Node(Expr, "", Flatten(c));
    ReorderChain(c);
    TransformNest(c);
    CalledMeans(c);
    CalledSettled(c);
    ExprSettled(Expr, "", Called(c));
  }

  // An identifier or a literal is a proper operand
  lemma WordSettled(rule: Rule, text: string)
    requires !Transformed(rule) && !IsToken(rule)
    ensures Settled(Node(rule, text, []))
  {
    var n := Node(rule, text, []);
    ReorderToken(n);
    TransformKeeps(n);
  }

  predicate IsWord(n: Node) { n.children == [] && !Transformed(n.rule) && !IsToken(n.rule) }

  lemma LeafSettled(n: Node)
    requires IsWord(n) || (n.rule.ExprValue? && |n.children| == 1 && IsWord(n.children[0]))
    ensures Settled(n)
  {
    hide Settled;
    if IsWord(n) {
      WordSettled(n.rule, n.text);
    } else {
      var w := n.children[0];
      WordSettled(w.rule, w.text);
      ExprSettled(ExprValue, n.text, w);
      assert n == Node(ExprValue, n.text, [w]);
    }
  }

  // A chain of identifiers and literals, each one being a value of the grammar
  ghost predicate OfWords(c: Chain) {
    match c
    case One(Leaf(n)) => IsWord(n) || (n.rule.ExprValue? && |n.children| == 1 && IsWord(n.children[0]))
    case One(Negated(_, c1)) => OfWords(c1)
    case More(l, op, r) => OfWords(l) && OfWords(r) && IsOperation(op)
  }

  // Its operands are proper, so that it is normalised as said above
  lemma {:induction false} WordsAreProper(c: Chain)
    requires OfWords(c)
    ensures Proper(c)
    decreases c
  {
    match c
    case One(Leaf(n)) => LeafSettled(n);
    case One(Negated(_, c1)) => WordsAreProper(c1);
    case More(l, _, r) => WordsAreProper(l); WordsAreProper(r);
  }

  // A proper operand also is a group in parentheses, made of such a tree
  lemma GroupSettled(c: Chain)
    requires Proper(c)
    ensures Settled(Node(ExprGroup, "", [Node(Expr, "", [Called(c)])]))
  {
    hide Settled;
    hide Called;
    CalledSettled(c);
    ExprSettled(Expr, "", Called(c));
    ExprSettled(ExprGroup, "", Node(Expr, "", [Called(c)]));
  }

  // ---- assignments ----

  // What the parser makes of '= r', after the siblings of its target
  function Assignment(text: string, r: Chain): Node { Node(ExprAssignment, "", [AssignToken(text)] + Flatten(r)) }

  function AssignToken(text: string): Node { Node(OperatorAssignment, text, []) }

  function Assigned(l: Chain, text: string, r: Chain): Node { Node(Expr, "", Flatten(l) + [Assignment(text, r)]) }

  lemma ReorderAssigned(l: Chain, text: string, r: Chain)
    requires Proper(l) && Proper(r)
    ensures Reorder(Assigned(l, text, r)) == Node(Expr, "", [Nest(l),
                                                             Node(ExprAssignment, "", [AssignToken(text), Nest(r)])])
  {
    hide *;
    var a := Assignment(text, r);
    AssignedIs(l, text, r);
    ArrangeIs(Assigned(l, text, r));
    FoldCat([], Flatten(l), [a]);
    FoldChain([], l);
    assert [] + [Half(l)] == [Half(l)];
    FoldOne([Half(l)], a);
    assert [Half(l)] + [a] == [Half(l), a];
    AssignmentStays(Half(l), text, r);
    ReorderIs(Assigned(l, text, r), [Half(l), a]);
    ReorderTwo(Half(l), a);
    ReorderHalf(l);
    ReorderAssignment(text, r);
  }

  lemma AssignedIs(l: Chain, text: string, r: Chain)
    ensures Assigned(l, text, r) == Node(Expr, "", Flatten(l) + [Assignment(text, r)])
  {
    hide Flatten;
  }

  // It takes no operand, and is no continuation
  lemma AssignmentStays(n: Node, text: string, r: Chain)
    ensures !Takes(Assignment(text, r), [n])
    ensures Absorb([n, Assignment(text, r)]) == [n, Assignment(text, r)]
  {
    hide Flatten;
    var a := Assignment(text, r);
    assert [n, a][1..] == [a];
    AbsorbOne(a);
  }

  lemma ReorderAssignment(text: string, r: Chain)
    requires Proper(r)
    ensures Reorder(Assignment(text, r)) == Node(ExprAssignment, "", [AssignToken(text), Nest(r)])
  {
    hide *;
    var a, token := Assignment(text, r), AssignToken(text);
    AssignmentIs(text, r);
    ArrangeIs(a);
    FoldCat([], [token], Flatten(r));
    FoldOne([], token);
    NotTaken(token, []);
    assert [] + [token] == [token];
    FoldChain([token], r);
    assert [token] + [Half(r)] == [token, Half(r)];
    AbsorbTwo(token, Half(r));
    ReorderIs(a, [token, Half(r)]);
    ReorderTwo(token, Half(r));
    ReorderToken(token);
    ReorderHalf(r);
  }

  lemma AssignmentIs(text: string, r: Chain)
    ensures Assignment(text, r) == Node(ExprAssignment, "", [AssignToken(text)] + Flatten(r))
    ensures IsToken(AssignToken(text).rule) && AssignToken(text).children == []
  {
    hide Flatten;
  }

  predicate IsLeaf(c: Chain) { c.One? && c.operand.Leaf? }

  lemma AssignedShaped(l: Chain, text: string, r: Chain)
    requires Proper(l) && Proper(r)
    ensures Shaped(Reorder(Assigned(l, text, r)))
  {
    ReorderAssigned(l, text, r);
    NestShaped(l);
    NestShaped(r);
    hide *;
    AssignShaped(text, Nest(r));
    PairShaped(Nest(l), Node(ExprAssignment, "", [AssignToken(text), Nest(r)]));
  }

  lemma AssignShaped(text: string, n: Node)
    requires Shaped(n)
    ensures Shaped(AssignToken(text)) && Shaped(Node(ExprAssignment, "", [AssignToken(text), n]))
    ensures !IsOperator(AssignToken(text).rule) && Once(AssignToken(text)) == AssignToken(text)
  {
  }

  lemma PairShaped(a: Node, b: Node)
    requires Shaped(a) && Shaped(b)
    ensures Shaped(Node(Expr, "", [a, b]))
  {
  }

  lemma NestIsOperator(c: Chain)
    requires Proper(c)
    ensures IsOperator(Nest(c).rule) <==> !IsLeaf(c)
  {
  }

  lemma TransformRule(n: Node)
    requires Shaped(n)
    ensures Transform(n).rule == n.rule
  {
  }

  // An assignment whose target is one operand is rewritten. When the target is a chain of operators, such as in
  // 'a + b = c', the index wraps around after this chain was rewritten, and this run leaves the assignment as it was.
  lemma AssignmentIsRewritten(l: Chain, text: string, r: Chain)
    requires Proper(l) && Proper(r)
    ensures Shaped(Reorder(Assigned(l, text, r))) && |Normalized(Assigned(l, text, r)).children| == 2
    ensures Normalized(Assigned(l, text, r)).children[1].rule == if IsLeaf(l) then ExprSubDot else ExprAssignment
    ensures IsLeaf(l) ==>
      Normalized(Assigned(l, text, r)) == Node(Expr, "", [l.operand.node, MemberCall(OperatorName(text), Called(r))])
  {
    hide *;
    AssignedShaped(l, text, r);
    ReorderAssigned(l, text, r);
    NestIsOperator(l);
    var a := Node(ExprAssignment, "", [AssignToken(text), Nest(r)]);
    var n := Node(Expr, "", [Nest(l), a]);
    TransformAt(n, 0);
    TransformAt(n, 1);
    TransformKeeps(n);
    SecondOfLevel(Nest(l), a);
    TransformRule(Level([Nest(l), a])[1]);
    NormalizedIs(Assigned(l, text, r));
    if IsLeaf(l) {
      LeafNest(l);
      FirstStays(Nest(l), a);
      MemberTransforms(text, r);
      assert Transform(n).children == [Nest(l), MemberCall(OperatorName(text), Called(r))];
    }
  }

  // The call of a member, on what comes before it
  function MemberCall(name: string, n: Node): Node { Node(ExprSubDot, "", [Invoke(name, [Parameter(n)])]) }

  // The member is named as operators are; a plain assignment keeps its name
  lemma MemberName(text: string, w: string)
    requires Strips(text, w) && w in {"=", "+=", "-=", "*=", "/=", "^="}
    ensures OperatorName(text) == if w == "=" then "=" else "^" + w
  {
    TrimStrips(text);
    StripsOne(text, w, TrimRight(text));
  }

  lemma LeafNest(l: Chain)
    requires IsLeaf(l) && Proper(l)
    ensures l.One? && l.operand.Leaf? && Nest(l) == l.operand.node && Settled(Nest(l))
  {
    hide Settled;
  }

  lemma MemberIs(text: string, n: Node)
    requires Shaped(Node(ExprAssignment, "", [AssignToken(text), n]))
    ensures Once(Node(ExprAssignment, "", [AssignToken(text), n])) == MemberCall(OperatorName(text), n)
  {
    hide OperatorName;
    assert [] + [Node(Call, "", [Parameter(n)])] == [Node(Call, "", [Parameter(n)])];
  }

  lemma MemberTransforms(text: string, r: Chain)
    requires Proper(r)
    ensures var a := Node(ExprAssignment, "", [AssignToken(text), Nest(r)]);
      Shaped(a) && Shaped(Once(a)) && Transform(Once(a)) == MemberCall(OperatorName(text), Called(r))
  {
    hide *;
    var name := OperatorName(text);
    NestShaped(r);
    AssignShaped(text, Nest(r));
    MemberIs(text, Nest(r));
    TransformNest(r);
    ParameterTransforms(Nest(r), Called(r));
    AllShapedOne(Parameter(Nest(r)));
    InvokeTransforms(name, [Parameter(Nest(r))], [Parameter(Called(r))]) by { ParameterRule(Nest(r)); }
    InvokeWraps(name, [Parameter(Nest(r))]);
    TransformOne(ExprSubDot, "", Invoke(name, [Parameter(Nest(r))]));
    MemberCallIs(name, Nest(r));
    MemberCallIs(name, Called(r));
  }

  lemma AllShapedOne(n: Node)
    requires Shaped(n)
    ensures AllShaped([n])
  {
  }

  lemma MemberCallIs(name: string, n: Node)
    ensures MemberCall(name, n) == Node(ExprSubDot, "", [Invoke(name, [Parameter(n)])])
  {
  }

  lemma ParameterRule(n: Node)
    ensures Parameter(n).rule == CallParameter
  {
  }

  lemma InvokeWraps(name: string, args: seq<Node>)
    requires Shaped(Invoke(name, args))
    ensures Once(Invoke(name, args)) == Invoke(name, args) && Shaped(Node(ExprSubDot, "", [Invoke(name, args)]))
  {
  }

  // An assignment to a chain is left with its operands normalised
  lemma AssignmentLeft(l: Chain, text: string, r: Chain)
    requires Proper(l) && Proper(r) && !IsLeaf(l)
    ensures Shaped(Reorder(Assigned(l, text, r)))
    ensures Normalized(Assigned(l, text, r)) == Node(Expr, "", [Called(l), LeftAlone(text, r)])
  {
    hide *;
    AssignedShaped(l, text, r);
    ReorderAssigned(l, text, r);
    NestIsOperator(l);
    var a := Node(ExprAssignment, "", [AssignToken(text), Nest(r)]);
    var n := Node(Expr, "", [Nest(l), a]);
    NormalizedIs(Assigned(l, text, r));
    TransformAt(n, 0);
    TransformAt(n, 1);
    TransformKeeps(n);
    FirstOfLevel(Nest(l), a);
    NestTransforms(l);
    AssignmentTransforms(text, r);
    assert Transform(n).children == [Called(l), LeftAlone(text, r)];
  }

  function LeftAlone(text: string, r: Chain): Node { Node(ExprAssignment, "", [AssignToken(text), Called(r)]) }

  lemma FirstOfLevel(first: Node, a: Node)
    requires AllShaped([first, a]) && IsOperator(first.rule)
    ensures Shaped(first) && Level([first, a])[0] == Once(first) && Level([first, a])[1] == a
  {
    assert [first, a][0] == first;
  }

  lemma NestTransforms(c: Chain)
    requires Proper(c)
    ensures Shaped(Nest(c)) && Shaped(Once(Nest(c))) && Transform(Once(Nest(c))) == Called(c)
  {
    hide *;
    TransformNest(c);
    NestShaped(c);
    OnceShaped(Nest(c));
    TransformOne(Expr, "", Nest(c));
  }

  lemma AssignmentTransforms(text: string, r: Chain)
    requires Proper(r)
    ensures var a := Node(ExprAssignment, "", [AssignToken(text), Nest(r)]);
      Shaped(a) && Transform(a) == LeftAlone(text, r)
  {
    hide *;
    var token := AssignToken(text);
    var a := Node(ExprAssignment, "", [token, Nest(r)]);
    NestTransforms(r);
    AssignShaped(text, Nest(r));
    TransformAt(a, 0);
    TransformAt(a, 1);
    TransformKeeps(a);
    LeftIs(text, r);
    TransformLeaf(token);
    LastOfLevel(token, Nest(r));
    assert Transform(a).children == [token, Called(r)];
  }

  lemma TransformLeaf(n: Node)
    requires n.children == [] && Shaped(n)
    ensures Transform(n) == n
  {
  }

  lemma LeftIs(text: string, r: Chain)
    ensures LeftAlone(text, r) == Node(ExprAssignment, "", [AssignToken(text), Called(r)])
    ensures AssignToken(text).children == []
  {
    hide Called;
  }

  lemma LastOfLevel(first: Node, n: Node)
    requires AllShaped([first, n]) && Shaped(first) && Shaped(n) && !IsOperator(first.rule) && Once(first) == first
    ensures Level([first, n])[0] == first && Level([first, n])[1] == Once(n)
  {
  }

  // The passes of an expression which contains this one, as every function does, visit it again: they change nothing
  // else, and the assignment is rewritten
  lemma AssignmentSettles(l: Chain, text: string, r: Chain)
    requires Proper(l) && Proper(r) && !IsLeaf(l)
    ensures Shaped(Reorder(Assigned(l, text, r)))
    ensures var n := Normalized(Assigned(l, text, r));
      && Shaped(n) && Reorder(n) == n
      && Transform(n) == Node(Expr, "", [Called(l), MemberCall(OperatorName(text), Called(r))])
  {
    hide *;
    AssignmentLeft(l, text, r);
    CalledSettled(l);
    CalledSettled(r);
    CalledRule(l);
    var a := LeftAlone(text, r);
    var n := Node(Expr, "", [Called(l), a]);
    LeftReorders(Called(l), text, r);
    SettledMeans(Called(l));
    LeftShaped(text, r);
    assert Shaped(n) by { PairShaped(Called(l), a); }
    TransformAt(n, 0);
    TransformAt(n, 1);
    TransformKeeps(n);
    SecondOfLevel(Called(l), a);
    FirstStays(Called(l), a);
    LeftIs(text, r);
    MemberIs(text, Called(r));
    MemberSettled(OperatorName(text), Called(r));
    assert Transform(n).children == [Called(l), MemberCall(OperatorName(text), Called(r))];
  }

  lemma MemberSettled(name: string, n: Node)
    requires Settled(n)
    ensures Shaped(MemberCall(name, n)) && Transform(MemberCall(name, n)) == MemberCall(name, n)
  {
    hide *;
    ParameterSettled(n);
    ParameterRule(n);
    InvokeSettled(name, [Parameter(n)]);
    ExprSettled(ExprSubDot, "", Invoke(name, [Parameter(n)])) by { PlainRule(); }
    MemberCallIs(name, n);
    SettledKeeps(Node(ExprSubDot, "", [Invoke(name, [Parameter(n)])]));
  }

  lemma PlainRule()
    ensures !Transformed(ExprSubDot) && !IsToken(ExprSubDot)
  {
  }

  lemma SettledKeeps(n: Node)
    requires Settled(n)
    ensures Shaped(n) && Transform(n) == n
  {
  }

  lemma FirstStays(first: Node, a: Node)
    requires Settled(first) && AllShaped([first, a])
    ensures Level([first, a])[0] == first && Transform(first) == first
  {
  }

  lemma SettledMeans(n: Node)
    requires Settled(n)
    ensures Shaped(n) && !IsOperator(n.rule) && !IsToken(n.rule) && Reorder(n) == n
  {
  }

  lemma CalledRule(c: Chain)
    requires Proper(c) && !IsLeaf(c)
    ensures Called(c).rule == Identifier
  {
  }

  lemma LeftShaped(text: string, r: Chain)
    requires Settled(Called(r))
    ensures Shaped(LeftAlone(text, r)) && LeftAlone(text, r).rule == ExprAssignment
  {
    hide Called;
    SettledMeans(Called(r));
    hide Shaped;
    AssignShaped(text, Called(r));
  }

  lemma LeftReorders(first: Node, text: string, r: Chain)
    requires Settled(first) && Proper(r) && Settled(Called(r))
    ensures Reorder(Node(Expr, "", [first, LeftAlone(text, r)])) == Node(Expr, "", [first, LeftAlone(text, r)])
  {
    var token, a := AssignToken(text), LeftAlone(text, r);
    hide Reorder;
    hide Called;
    SettledMeans(first);
    SettledMeans(Called(r));
    ReorderToken(token);
    PairReorders(ExprAssignment, token, Called(r));
    PairReorders(Expr, first, a);
  }

  lemma PairReorders(rule: Rule, a: Node, b: Node)
    requires !rule.Call? && !rule.Intrinsic? && !IsOperator(a.rule) && !IsOperator(b.rule)
    requires IsToken(a.rule) || !IsContinuation(b.rule)
    requires Reorder(a) == a && Reorder(b) == b
    ensures Reorder(Node(rule, "", [a, b])) == Node(rule, "", [a, b])
  {
    var n := Node(rule, "", [a, b]);
    hide Reorder;
    hide ReorderAll;
    hide Arrange;
    ArrangeIs(n);
    assert [a] + [b] == [a, b] && [] + [a] == [a];
    FoldCat([], [a], [b]);
    FoldOne([], a);
    FoldOne([a], b);
    assert [a, b][1..] == [b];
    AbsorbOne(b);
    ReorderIs(n, [a, b]);
    ReorderTwo(a, b);
  }

  lemma NormalizedIs(n: Node)
    requires Shaped(Reorder(n))
    ensures Normalized(n) == Transform(Reorder(n))
  {
  }

  lemma SecondOfLevel(first: Node, a: Node)
    requires AllShaped([first, a]) && a.rule.ExprAssignment?
    ensures Level([first, a])[1].rule == if IsOperator(first.rule) then ExprAssignment else ExprSubDot
    ensures !IsOperator(first.rule) ==> Level([first, a])[1] == Once(a)
  {
  }

  // What the grammar makes of an identifier
  function Name(text: string): Node { Node(ExprValue, "", [Node(Identifier, text, [])]) }

  const SUM: Chain := More(One(Leaf(Name("a"))), Operator(ExprAdd, OperatorAdd, "+"), One(Leaf(Name("b"))))
  const VALUE: Chain := One(Leaf(Name("c")))

  lemma SumIs()
    ensures Assigned(SUM, "=", VALUE).children
         == [Name("a"),
             Node(ExprAdd, "", [Node(OperatorAdd, "+", []), Name("b")]),
             Node(ExprAssignment, "", [Node(OperatorAssignment, "=", []), Name("c")])]
    ensures OfWords(SUM) && OfWords(VALUE) && !IsLeaf(SUM)
  {
    var a, b, c := Name("a"), Name("b"), Name("c");
    var plus, equal := Node(OperatorAdd, "+", []), AssignToken("=");
    assert Flatten(One(Leaf(a))) == [a] && Flatten(One(Leaf(b))) == [b] && Flatten(VALUE) == [c];
    assert [plus] + [b] == [plus, b] && [equal] + [c] == [equal, c];
    var sum, assignment := Node(ExprAdd, "", [plus, b]), Node(ExprAssignment, "", [equal, c]);
    assert Flatten(SUM) == [a, sum];
    assert Assignment("=", VALUE) == assignment;
    assert [a, sum] + [assignment] == [a, sum, assignment];
  }

  lemma SumCalled()
    ensures Called(SUM) == Invoke("^+", [Parameter(Name("a")), Parameter(Name("b"))]) && Called(VALUE) == Name("c")
    ensures Strips("=", "=")
  {
    assert Strips("+", "+");
    CallName("+");
    TrimStrips("+");
    StripsOne("+", "+", TrimRight("+"));
    assert "^" + "+" == "^+";
  }

  // 'a + b = c', from the siblings made by the parser: the first run leaves the assignment, the second one rewrites it
  lemma SumAssigned()
    ensures Assigned(SUM, "=", VALUE).children
         == [Name("a"),
             Node(ExprAdd, "", [Node(OperatorAdd, "+", []), Name("b")]),
             Node(ExprAssignment, "", [Node(OperatorAssignment, "=", []), Name("c")])]
    ensures Shaped(Reorder(Assigned(SUM, "=", VALUE)))
    ensures |Normalized(Assigned(SUM, "=", VALUE)).children| == 2
    ensures Normalized(Assigned(SUM, "=", VALUE)).children[1].rule == ExprAssignment
    ensures var n := Normalized(Assigned(SUM, "=", VALUE));
      && Shaped(n) && Reorder(n) == n
      && Transform(n) == Node(Expr, "", [Invoke("^+", [Parameter(Name("a")), Parameter(Name("b"))]),
                                         MemberCall("=", Name("c"))])
  {
    hide *;
    SumCalled();
    MemberName("=", "=");
    SumIs();
    WordsAreProper(SUM);
    WordsAreProper(VALUE);
    AssignmentIsRewritten(SUM, "=", VALUE);
    AssignmentSettles(SUM, "=", VALUE);
  }
}
