/**
 * Whole programs run through the model: the token lists the lexer makes
 * for them, the trees the parser builds from those tokens and the values
 * the evaluator computes from the trees, for the examples the program's
 * own test suite checks.
 */
module Scenarios {
  import opened Wrappers
  import opened Values
  import opened Ast
  import K = Tokens
  import opened Grids
  import opened Decimal
  import opened Grammar
  import opened GrammarFacts
  import opened GrammarShapes
  import opened Semantics
  import Op = Operators

  /** A one-character token at index `at` of the source text. */
  function At(kind: K.Kind, text: string, at: nat): K.Token {
    K.Token(kind, text, at, at)
  }

  /** An Integer leaf read from the digit at index `at`. */
  function Lit(v: int, at: nat): Node {
    IntegerPrimitive(v, Span(at, at))
  }

  /** A single digit reads as its own value. */
  lemma DigitLeaf(t: K.Token, d: nat)
    requires d < 10 && t.text == [DigitChar(d)]
    ensures NumberLeaf(t) == IntegerPrimitive(d, SpanOf(t))
  {
    assert t.text == NatToString(d) + "";
    LeadingValueOfNat(d, "");
  }

  // ------------------------------------------------------------ (5 + 2) * 3 % 4

  /** The tokens of "(5 + 2) * 3 % 4": spaces make no token. */
  function ParenTokens(): seq<K.Token> {
    [At(K.LeftParenthesis, "(", 0), At(K.Number, "5", 1), At(K.Plus, "+", 3), At(K.Number, "2", 5),
     At(K.RightParenthesis, ")", 6), At(K.Asterisk, "*", 8), At(K.Number, "3", 10),
     At(K.Percent, "%", 12), At(K.Number, "4", 14)]
  }

  function ParenSum(): Node {
    Binary(AdditionOperation, Lit(5, 1), Lit(2, 5), Span(3, 3))
  }

  /** `*` and `%` share a level and fold to the left: `((5 + 2) * 3) % 4`. */
  function ParenTree(): Node {
    Binary(ModuloOperation, Binary(MultiplicationOperation, ParenSum(), Lit(3, 10), Span(8, 8)), Lit(4, 14), Span(12, 12))
  }

  /** The token kinds of "(5 + 2) * 3 % 4", position by position. */
  predicate ParenKinds(ts: seq<K.Token>) {
    |ts| == 9 && ts[0].kind == K.LeftParenthesis && ts[1].kind == K.Number && ts[2].kind == K.Plus &&
    ts[3].kind == K.Number && ts[4].kind == K.RightParenthesis && ts[5].kind == K.Asterisk &&
    ts[6].kind == K.Number && ts[7].kind == K.Percent && ts[8].kind == K.Number
  }

  /** The tree any token list of those kinds parses to. */
  function ParenShaped(ts: seq<K.Token>): Node
    requires |ts| == 9
  {
    var sum := Binary(AdditionOperation, NumberLeaf(ts[1]), NumberLeaf(ts[3]), SpanOf(ts[2]));
    Binary(ModuloOperation, Binary(MultiplicationOperation, sum, NumberLeaf(ts[6]), SpanOf(ts[5])),
           NumberLeaf(ts[8]), SpanOf(ts[7]))
  }

  /** Inside the parentheses: `5 + 2`, stopped by the `)`. */
  lemma ParenInside(ts: seq<K.Token>)
    requires ParenKinds(ts)
    ensures Expression(ts, 1) == Ok(Parsed(ParenShaped(ts).left.left, 4))
  {
    var sum := ParenShaped(ts).left.left;
    assert BinaryLevel(ts[4].kind) == 0;
    NumbersAround(ts, 3, 1);
    assert Level(ts, 3, 1) == Ok(Parsed(sum, 4));
    GrammarFacts.Lift(ts, 1, 3, 1, sum, 4);
  }

  /** Two numbers around one operator of a level, and nothing of that level or tighter after them. */
  lemma NumbersAround(ts: seq<K.Token>, level: nat, pos: nat)
    requires 1 <= level <= 5 && pos + 2 < |ts| && ts[pos].kind == K.Number && ts[pos + 2].kind == K.Number
    requires OperatorOf(level, ts[pos + 1].kind).Some? && Ends(ts, level, pos + 3)
    ensures Level(ts, level, pos) == Ok(Parsed(Binary(OperatorOf(level, ts[pos + 1].kind).value,
      NumberLeaf(ts[pos]), NumberLeaf(ts[pos + 2]), SpanOf(ts[pos + 1])), pos + 3))
  {
    NumberOperand(ts, pos);
    NumberOperand(ts, pos + 2);
    Single(ts, level, pos, NumberLeaf(ts[pos]), pos + 1, NumberLeaf(ts[pos + 2]), pos + 3);
  }

  /** The parser on "(5 + 2) * 3 % 4": the group is one operand, then `*` and `%` fold from the left. */
  lemma ParenParse(ts: seq<K.Token>)
    requires ParenKinds(ts)
    ensures Expression(ts, 0) == Ok(Parsed(ParenShaped(ts), 9))
  {
    var sum := ParenShaped(ts).left.left;
    ParenInside(ts);
    ParenShape(ts, 0, sum, 4);
    ProductThenModulo(ts, sum, 5);
  }

  /** An operand, then `* n % m` to the end: the two operators of one level fold from the left. */
  lemma ProductThenModulo(ts: seq<K.Token>, a: Node, p: nat)
    requires Level6(ts, 0) == Ok(Parsed(a, p)) && p + 4 == |ts|
    requires ts[p].kind == K.Asterisk && ts[p + 1].kind == K.Number
    requires ts[p + 2].kind == K.Percent && ts[p + 3].kind == K.Number
    ensures var product := Binary(MultiplicationOperation, a, NumberLeaf(ts[p + 1]), SpanOf(ts[p]));
      Expression(ts, 0) == Ok(Parsed(Binary(ModuloOperation, product, NumberLeaf(ts[p + 3]), SpanOf(ts[p + 2])), p + 4))
  {
    ProductThenModuloLevel(ts, a, p);
    var product := Binary(MultiplicationOperation, a, NumberLeaf(ts[p + 1]), SpanOf(ts[p]));
    GrammarFacts.Lift(ts, 1, 4, 0, Binary(ModuloOperation, product, NumberLeaf(ts[p + 3]), SpanOf(ts[p + 2])), p + 4);
  }

  lemma ProductThenModuloLevel(ts: seq<K.Token>, a: Node, p: nat)
    requires Level6(ts, 0) == Ok(Parsed(a, p)) && p + 4 == |ts|
    requires ts[p].kind == K.Asterisk && ts[p + 1].kind == K.Number
    requires ts[p + 2].kind == K.Percent && ts[p + 3].kind == K.Number
    ensures var product := Binary(MultiplicationOperation, a, NumberLeaf(ts[p + 1]), SpanOf(ts[p]));
      Level(ts, 4, 0) == Ok(Parsed(Binary(ModuloOperation, product, NumberLeaf(ts[p + 3]), SpanOf(ts[p + 2])), p + 4))
  {
    assert OperatorOf(4, ts[p].kind) == Some(MultiplicationOperation);
    assert OperatorOf(4, ts[p + 2].kind) == Some(ModuloOperation);
    OperandBefore(ts, 4, 0, a, p);
    NumberThenOperator(ts, 4, p + 1);
    LastNumber(ts, 4, p + 3);
    assert Ends(ts, 4, p + 4);
    LeftAssociative(ts, 4, 0, a, p, NumberLeaf(ts[p + 1]), p + 2, NumberLeaf(ts[p + 3]), p + 4);
  }

  /** A number followed by an operator of the level is an operand of that level. */
  lemma NumberThenOperator(ts: seq<K.Token>, level: nat, pos: nat)
    requires 1 <= level <= 5 && pos + 1 < |ts| && ts[pos].kind == K.Number
    requires OperatorOf(level, ts[pos + 1].kind).Some?
    ensures Operand(ts, level, pos) == Ok(Parsed(NumberLeaf(ts[pos]), pos + 1))
  {
    NumberOperand(ts, pos);
    OperandBefore(ts, level, pos, NumberLeaf(ts[pos]), pos + 1);
  }

  /** The last token, a number, is an operand of any level. */
  lemma LastNumber(ts: seq<K.Token>, level: nat, pos: nat)
    requires 1 <= level <= 5 && pos + 1 == |ts| && ts[pos].kind == K.Number
    ensures Operand(ts, level, pos) == Ok(Parsed(NumberLeaf(ts[pos]), pos + 1))
  {
    NumberOperand(ts, pos);
    OperandClimb(ts, level, pos, NumberLeaf(ts[pos]), pos + 1);
  }

  /** The whole program is a block of that one expression. */
  lemma ParenProgram(ts: seq<K.Token>)
    requires ParenKinds(ts)
    ensures Parse(ts) == Ok(Block([ParenShaped(ts)]))
  {
    ParenParse(ts);
    OneExpression(ts, ParenShaped(ts));
  }

  /**
   * A token list that is one expression, read to its end, is a program of
   * one statement when its first token starts no other kind of statement.
   */
  lemma {:induction false} OneExpression(ts: seq<K.Token>, e: Node)
    requires |ts| > 0 && Expression(ts, 0) == Ok(Parsed(e, |ts|))
    requires ts[0].kind != K.Linebreak && ts[0].kind != K.End && ts[0].kind != K.Else
    requires ts[0].kind != K.If && ts[0].kind != K.For && ts[0].kind != K.Identifier
    ensures Parse(ts) == Ok(Block([e]))
  {
    StatementKinds(ts, 0);
    assert SkipLinebreaks(ts, 0) == 0;
    assert Statement(ts, 0) == Ok(Parsed(e, |ts|));
    assert [] + [e] == [e];
    assert BlockFrom(ts, 0, []) == BlockFrom(ts, |ts|, [e]);
  }

  /** The lexer's tokens for "(5 + 2) * 3 % 4" have those kinds, and the digits read as 5, 2, 3 and 4. */
  lemma ParenTokensTree()
    ensures ParenKinds(ParenTokens()) && ParenShaped(ParenTokens()) == ParenTree()
  {
    var ts := ParenTokens();
    DigitLeaf(ts[1], 5);
    DigitLeaf(ts[3], 2);
    DigitLeaf(ts[6], 3);
    DigitLeaf(ts[8], 4);
    assert ParenShaped(ts).left.left == ParenSum();
  }

  /** Evaluated on any grid and variables it is `(5 + 2) * 3 % 4` of Ruby, 1, and binds nothing. */
  lemma ParenValue(g: Cells, env: Env)
    ensures Eval(ParenTree(), g, env) == Done(Some(Int(1)), env)
  {
    assert Eval(ParenSum(), g, env) == Done(Some(Int(7)), env);
    assert Eval(Binary(MultiplicationOperation, ParenSum(), Lit(3, 10), Span(8, 8)), g, env) == Done(Some(Int(21)), env);
    assert Op.Modulo(Some(Int(21)), Some(Int(4))) == Ok(Int(1));
  }

  // ------------------------------------------------------------ -1 + 2

  /** The tokens of "-1 + 2": the minus sign is a token of its own. */
  function NegativeTokens(): seq<K.Token> {
    [At(K.Minus, "-", 0), At(K.Number, "1", 1), At(K.Plus, "+", 3), At(K.Number, "2", 5)]
  }

  /** The prefix minus binds to the `1` alone: `(-1) + 2`. */
  function NegativeTree(): Node {
    Binary(AdditionOperation, Unary(NegationOperation, Lit(1, 1), Span(0, 0)), Lit(2, 5), Span(3, 3))
  }

  /** The parser on "-1 + 2": a prefix operator, a number, `+` and a number. */
  lemma NegativeParse(ts: seq<K.Token>)
    requires |ts| == 4 && ts[0].kind == K.Minus && ts[1].kind == K.Number
    requires ts[2].kind == K.Plus && ts[3].kind == K.Number
    ensures var negated := Unary(NegationOperation, NumberLeaf(ts[1]), SpanOf(ts[0]));
      Expression(ts, 0) == Ok(Parsed(Binary(AdditionOperation, negated, NumberLeaf(ts[3]), SpanOf(ts[2])), 4))
  {
    PrefixedNumbers(ts, 3, 0);
    var negated := Unary(NegationOperation, NumberLeaf(ts[1]), SpanOf(ts[0]));
    GrammarFacts.Lift(ts, 1, 3, 0, Binary(AdditionOperation, negated, NumberLeaf(ts[3]), SpanOf(ts[2])), 4);
  }

  /** A prefix operator, a number, an operator of the level and a number, and then nothing of that level or tighter. */
  lemma PrefixedNumbers(ts: seq<K.Token>, level: nat, pos: nat)
    requires 1 <= level <= 5 && pos + 3 < |ts| && IsPrefix(ts[pos].kind) && ts[pos + 1].kind == K.Number
    requires OperatorOf(level, ts[pos + 2].kind).Some? && ts[pos + 3].kind == K.Number && Ends(ts, level, pos + 4)
    ensures var prefixed := Unary(PrefixOf(ts[pos].kind), NumberLeaf(ts[pos + 1]), SpanOf(ts[pos]));
      Level(ts, level, pos) == Ok(Parsed(Binary(OperatorOf(level, ts[pos + 2].kind).value,
        prefixed, NumberLeaf(ts[pos + 3]), SpanOf(ts[pos + 2])), pos + 4))
  {
    NumberOperand(ts, pos + 1);
    NumberOperand(ts, pos + 3);
    PrefixBindsTighter(ts, level, pos, NumberLeaf(ts[pos + 1]), pos + 2, NumberLeaf(ts[pos + 3]), pos + 4);
  }

  /** The tree of the lexer's tokens for "-1 + 2". */
  lemma NegativeTokensTree()
    ensures var ts := NegativeTokens();
      Unary(NegationOperation, NumberLeaf(ts[1]), SpanOf(ts[0])) == NegativeTree().left &&
      NumberLeaf(ts[3]) == NegativeTree().right && SpanOf(ts[2]) == NegativeTree().span
  {
    DigitLeaf(NegativeTokens()[1], 1);
    DigitLeaf(NegativeTokens()[3], 2);
  }

  /** Evaluated, "-1 + 2" is 1. */
  lemma NegativeValue(g: Cells, env: Env)
    ensures Eval(NegativeTree(), g, env) == Done(Some(Int(1)), env)
  {
    assert Eval(Unary(NegationOperation, Lit(1, 1), Span(0, 0)), g, env) == Done(Some(Int(-1)), env);
  }

  // ------------------------------------------------------------ 10 and 5

  /** `10 op 5` over two Integer leaves. */
  function TenAndFive(op: BinaryClass): Node {
    Binary(op, IntegerPrimitive(10, NoSpan), IntegerPrimitive(5, NoSpan), NoSpan)
  }

  /** An eager operator over two Integer leaves: the operator applied to the two Integers, no variable bound. */
  lemma IntegerOperands(op: BinaryClass, a: int, b: int, g: Cells, env: Env)
    requires Eager(op)
    ensures Eval(Binary(op, IntegerPrimitive(a, NoSpan), IntegerPrimitive(b, NoSpan), NoSpan), g, env) ==
      Semantics.Lift(ApplyBinary(op, Some(Int(a)), Some(Int(b))), env)
  {
    var n := Binary(op, IntegerPrimitive(a, NoSpan), IntegerPrimitive(b, NoSpan), NoSpan);
    assert Eval(n.left, g, env) == Done(Some(Int(a)), env);
    assert Eval(n.right, g, env) == Done(Some(Int(b)), env);
    assert Eval(n, g, env) == EvalOperands(n, g, env);
  }

  /** `10 + 5` is the Integer 15. */
  lemma TenPlusFive(g: Cells, env: Env)
    ensures Eval(TenAndFive(AdditionOperation), g, env) == Done(Some(Int(15)), env)
  {
    IntegerOperands(AdditionOperation, 10, 5, g, env);
    assert Op.Add(Some(Int(10)), Some(Int(5))) == Ok(Int(15));
  }

  /** `10 - 5` is the Integer 5. */
  lemma TenMinusFive(g: Cells, env: Env)
    ensures Eval(TenAndFive(SubtractionOperation), g, env) == Done(Some(Int(5)), env)
  {
    IntegerOperands(SubtractionOperation, 10, 5, g, env);
    assert Op.Subtract(Some(Int(10)), Some(Int(5))) == Ok(Int(5));
  }

  /** `10 * 5` is the Integer 50. */
  lemma TenTimesFive(g: Cells, env: Env)
    ensures Eval(TenAndFive(MultiplicationOperation), g, env) == Done(Some(Int(50)), env)
  {
    IntegerOperands(MultiplicationOperation, 10, 5, g, env);
    assert Op.Multiply(Some(Int(10)), Some(Int(5))) == Ok(Int(50));
  }

  /** `10 / 5` divides as Floats: 2.0. */
  lemma TenOverFive(g: Cells, env: Env)
    ensures Eval(TenAndFive(DivisionOperation), g, env) == Done(Some(Flt(2.0)), env)
  {
    IntegerOperands(DivisionOperation, 10, 5, g, env);
    assert Op.Divide(Some(Int(10)), Some(Int(5))) == Ok(Flt(2.0));
  }

  /** `10 ** 5` is the Integer 100000. */
  lemma TenToTheFifth(g: Cells, env: Env)
    ensures Eval(TenAndFive(ExponentiationOperation), g, env) == Done(Some(Int(100000)), env)
  {
    IntegerOperands(ExponentiationOperation, 10, 5, g, env);
    assert Op.Pow(10, 5) == 100000;
    assert Op.Power(Some(Int(10)), Some(Int(5))) == Ok(Int(100000));
  }
}
