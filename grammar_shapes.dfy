/**
 * The trees the productions below the binary levels build: assignments,
 * casts, parenthesised groups, `#[a, b]` and `[a, b]` pairs, statistical
 * calls and literal tokens, each with the error it raises when a token it
 * expects is missing. Casts sit between the prefix operators and the atoms:
 * a prefix operator applies to a cast, and a cast only to a parenthesised
 * expression.
 */
module GrammarShapes {
  import opened Wrappers
  import K = Tokens
  import opened Ast
  import opened Grammar
  import opened GrammarFacts

  /** The cast keywords `float` and `int`. */
  predicate IsCast(k: K.Kind) {
    k == K.Float || k == K.Int
  }

  /** The openers of a bracketed pair, `#[` and `[`. */
  predicate IsBracket(k: K.Kind) {
    k == K.HashBracketStart || k == K.LeftSquareBracket
  }

  /** The statistical keywords `sum`, `mean`, `min` and `max`. */
  predicate IsStatistic(k: K.Kind) {
    k == K.Sum || k == K.Mean || k == K.Min || k == K.Max
  }

  /**
   * A token the operand levels pass down to the leaf production: neither a
   * prefix operator, a cast keyword, a line break, a `(`, a bracket opener
   * nor a statistical keyword.
   */
  predicate IsLeaf(k: K.Kind) {
    !IsPrefix(k) && !IsCast(k) && !IsBracket(k) && !IsStatistic(k) &&
    k != K.Linebreak && k != K.LeftParenthesis
  }

  // ------------------------------------------------------------ statements

  /** `x -> e` binds the identifier token to the whole expression after the arrow. */
  lemma AssignmentShape(ts: seq<K.Token>, pos: nat, e: Node, q: nat)
    requires pos + 1 < |ts| && ts[pos].kind == K.Identifier && ts[pos + 1].kind == K.Assignment
    requires Expression(ts, pos + 2) == Ok(Parsed(e, q))
    ensures Statement(ts, pos) == Ok(Parsed(Assignment(ts[pos], e), q))
  {
  }

  /** An assignment whose expression fails fails with that expression's error. */
  lemma AssignmentFails(ts: seq<K.Token>, pos: nat)
    requires pos + 1 < |ts| && ts[pos].kind == K.Identifier && ts[pos + 1].kind == K.Assignment
    requires Expression(ts, pos + 2).Err?
    ensures Statement(ts, pos) == Err(Expression(ts, pos + 2).error)
  {
  }

  // ------------------------------------------------------------ casts

  /** The cast a keyword token names: `float` converts to Float, `int` to Integer. */
  function CastOf(k: K.Kind): UnaryClass {
    if k == K.Float then IntToFloat else FloatToInt
  }

  /** `float(e)` and `int(e)` wrap the whole parenthesised expression in a cast node. */
  lemma CastShape(ts: seq<K.Token>, pos: nat, e: Node, q: nat)
    requires pos + 1 < |ts| && IsCast(ts[pos].kind) && ts[pos + 1].kind == K.LeftParenthesis
    requires Expression(ts, pos + 2) == Ok(Parsed(e, q)) && Has(ts, q, K.RightParenthesis)
    ensures Level6(ts, pos) == Ok(Parsed(Unary(CastOf(ts[pos].kind), e, NoSpan), q + 1))
  {
    CastLevel(ts, pos);
  }

  /** A cast keyword not followed by `(`, or whose expression is not followed by `)`, is an error there. */
  lemma CastFails(ts: seq<K.Token>, pos: nat)
    requires pos < |ts| && IsCast(ts[pos].kind)
    ensures !Has(ts, pos + 1, K.LeftParenthesis) ==>
      Level6(ts, pos) == Err(Fail(ts, pos + 1, MissingCastOpen(CastOf(ts[pos].kind))))
    ensures Has(ts, pos + 1, K.LeftParenthesis) && Expression(ts, pos + 2).Ok? &&
            !Has(ts, Expression(ts, pos + 2).value.next, K.RightParenthesis) ==>
      Level6(ts, pos) == Err(Fail(ts, Expression(ts, pos + 2).value.next, MissingCastClose(CastOf(ts[pos].kind))))
  {
    CastLevel(ts, pos);
  }

  /** A cast keyword is no prefix operator: the prefix level hands it to the cast production. */
  lemma CastLevel(ts: seq<K.Token>, pos: nat)
    requires pos < |ts| && IsCast(ts[pos].kind)
    ensures Level6(ts, pos) == Cast(ts, CastOf(ts[pos].kind), pos + 1)
  {
    CastIsNoPrefix(ts, pos);
    CastAtom(ts, pos);
  }

  lemma CastIsNoPrefix(ts: seq<K.Token>, pos: nat)
    requires pos < |ts| && IsCast(ts[pos].kind)
    ensures Level6(ts, pos) == Level7(ts, pos)
  {
  }

  lemma CastAtom(ts: seq<K.Token>, pos: nat)
    requires pos < |ts| && IsCast(ts[pos].kind)
    ensures Level7(ts, pos) == Cast(ts, CastOf(ts[pos].kind), pos + 1)
  {
  }

  /** A prefix operator before a cast applies to the cast: `-int(e)` negates the cast of `e`. */
  lemma PrefixOverCast(ts: seq<K.Token>, pos: nat, e: Node, q: nat)
    requires pos + 2 < |ts| && IsPrefix(ts[pos].kind)
    requires IsCast(ts[pos + 1].kind) && ts[pos + 2].kind == K.LeftParenthesis
    requires Expression(ts, pos + 3) == Ok(Parsed(e, q)) && Has(ts, q, K.RightParenthesis)
    ensures Level6(ts, pos) ==
      Ok(Parsed(Unary(PrefixOf(ts[pos].kind), Unary(CastOf(ts[pos + 1].kind), e, NoSpan), SpanOf(ts[pos])), q + 1))
  {
    CastShape(ts, pos + 1, e, q);
    PrefixShape(ts, pos, Unary(CastOf(ts[pos + 1].kind), e, NoSpan), q + 1);
  }

  /** Any token that is neither a prefix operator nor a cast keyword is parsed as an atom. */
  lemma AtomLevel(ts: seq<K.Token>, pos: nat)
    requires pos <= |ts|
    requires pos < |ts| ==> !IsPrefix(ts[pos].kind) && !IsCast(ts[pos].kind)
    ensures Level6(ts, pos) == Level8(ts, pos)
  {
    assert Level6(ts, pos) == Level7(ts, pos);
  }

  // ------------------------------------------------------------ atoms

  /** A parenthesised expression is that expression: `(e)` adds no node. */
  lemma ParenShape(ts: seq<K.Token>, pos: nat, e: Node, q: nat)
    requires pos < |ts| && ts[pos].kind == K.LeftParenthesis
    requires Expression(ts, pos + 1) == Ok(Parsed(e, q)) && Has(ts, q, K.RightParenthesis)
    ensures Level6(ts, pos) == Ok(Parsed(e, q + 1))
  {
    AtomLevel(ts, pos);
    ParenAtom(ts, pos, e, q);
  }

  lemma ParenAtom(ts: seq<K.Token>, pos: nat, e: Node, q: nat)
    requires pos < |ts| && ts[pos].kind == K.LeftParenthesis && Expression(ts, pos + 1) == Ok(Parsed(e, q))
    ensures Level8(ts, pos) == if Has(ts, q, K.RightParenthesis) then Ok(Parsed(e, q + 1)) else Err(Fail(ts, q, MissingClose))
  {
  }

  /** A parenthesised expression without its `)` is an error where the `)` should be. */
  lemma ParenFails(ts: seq<K.Token>, pos: nat, e: Node, q: nat)
    requires pos < |ts| && ts[pos].kind == K.LeftParenthesis
    requires Expression(ts, pos + 1) == Ok(Parsed(e, q)) && !Has(ts, q, K.RightParenthesis)
    ensures Level6(ts, pos) == Err(Fail(ts, q, MissingClose))
  {
    AtomLevel(ts, pos);
    ParenAtom(ts, pos, e, q);
  }

  /** A line break before an atom starts a whole new expression. */
  lemma LinebreakShape(ts: seq<K.Token>, pos: nat)
    requires pos < |ts| && ts[pos].kind == K.Linebreak
    ensures Level6(ts, pos) == Expression(ts, pos + 1)
  {
    AtomLevel(ts, pos);
  }

  /** Literal, variable and unexpected tokens, and the end of the list, reach the leaf production. */
  lemma PrimitiveLevel(ts: seq<K.Token>, pos: nat)
    requires pos <= |ts|
    requires pos < |ts| ==> IsLeaf(ts[pos].kind)
    ensures Level6(ts, pos) == Primitive(ts, pos)
  {
    AtomLevel(ts, pos);
    LeafAtom(ts, pos);
  }

  lemma LeafAtom(ts: seq<K.Token>, pos: nat)
    requires pos <= |ts|
    requires pos < |ts| ==> IsLeaf(ts[pos].kind)
    ensures Level8(ts, pos) == Primitive(ts, pos)
  {
  }

  /** `true` and `false` are Boolean leaves, true exactly when the text is `true`. */
  lemma BooleanLeaf(ts: seq<K.Token>, pos: nat)
    requires pos < |ts| && (ts[pos].kind == K.True || ts[pos].kind == K.False)
    ensures Level6(ts, pos) == Ok(Parsed(BooleanPrimitive(ts[pos].text == "true", SpanOf(ts[pos])), pos + 1))
  {
    PrimitiveLevel(ts, pos);
  }

  /** An identifier in an expression is a reference to the variable of that name. */
  lemma IdentifierLeaf(ts: seq<K.Token>, pos: nat)
    requires pos < |ts| && ts[pos].kind == K.Identifier
    ensures Level6(ts, pos) == Ok(Parsed(Reference(ts[pos].text, SpanOf(ts[pos])), pos + 1))
  {
    PrimitiveLevel(ts, pos);
  }

  /** A token that cannot start an operand is unexpected, reported at its start. */
  lemma UnexpectedStart(ts: seq<K.Token>, pos: nat)
    requires pos < |ts|
    requires IsLeaf(ts[pos].kind) && ts[pos].kind != K.Number && ts[pos].kind != K.True &&
             ts[pos].kind != K.False && ts[pos].kind != K.Identifier
    ensures Level6(ts, pos) == Err(Failure(UnexpectedToken, ts[pos].startIndex))
  {
    PrimitiveLevel(ts, pos);
  }

  /** An operand that is missing at the end of the list runs off the end. */
  lemma MissingOperand(ts: seq<K.Token>)
    ensures Level6(ts, |ts|) == Err(RanOffEnd)
  {
    PrimitiveLevel(ts, |ts|);
  }

  // ------------------------------------------------------------ pairs and calls

  /** Two expressions with a comma between them, or with none, are the two operands. */
  lemma OperandsShape(ts: seq<K.Token>, pos: nat, a: Node, p: nat, b: Node, q: nat)
    requires pos <= |ts| && Expression(ts, pos) == Ok(Parsed(a, p))
    requires Has(ts, p, K.Comma) ==> Expression(ts, p + 1) == Ok(Parsed(b, q))
    requires !Has(ts, p, K.Comma) ==> Expression(ts, p) == Ok(Parsed(b, q))
    ensures Operands(ts, pos) == Ok(Pair(a, b, q))
  {
  }

  /** The node class of a bracket token: `#[` reads a cell, `[` names one. */
  function BracketOf(k: K.Kind): BinaryClass {
    if k == K.HashBracketStart then RValue else LValue
  }

  /** `#[a, b]` is an `RValue` node and `[a, b]` an `LValue` node over the two operands. */
  lemma BracketShape(ts: seq<K.Token>, pos: nat, a: Node, b: Node, q: nat)
    requires pos < |ts| && IsBracket(ts[pos].kind)
    requires Operands(ts, pos + 1) == Ok(Pair(a, b, q))
    ensures Has(ts, q, K.RightSquareBracket) ==>
      Level6(ts, pos) == Ok(Parsed(Binary(BracketOf(ts[pos].kind), a, b, NoSpan), q + 1))
    ensures !Has(ts, q, K.RightSquareBracket) ==>
      Level6(ts, pos) == Err(Fail(ts, q, if ts[pos].kind == K.HashBracketStart then MissingRValueClose else MissingLValueClose))
  {
    BracketLevel(ts, pos);
    ClosedBracket(ts, pos, a, b, q);
  }

  /** The operand level hands `#[` and `[` to the bracketed pair. */
  lemma BracketLevel(ts: seq<K.Token>, pos: nat)
    requires pos < |ts| && IsBracket(ts[pos].kind)
    ensures Level6(ts, pos) == Bracketed(ts, pos)
  {
    AtomLevel(ts, pos);
    BracketAtom(ts, pos);
  }

  lemma BracketAtom(ts: seq<K.Token>, pos: nat)
    requires pos < |ts| && IsBracket(ts[pos].kind)
    ensures Level8(ts, pos) == Bracketed(ts, pos)
  {
  }

  /** What the bracketed pair builds once its operands are read. */
  lemma ClosedBracket(ts: seq<K.Token>, pos: nat, a: Node, b: Node, q: nat)
    requires pos < |ts| && IsBracket(ts[pos].kind)
    requires Operands(ts, pos + 1) == Ok(Pair(a, b, q))
    ensures Has(ts, q, K.RightSquareBracket) ==>
      Bracketed(ts, pos) == Ok(Parsed(Binary(BracketOf(ts[pos].kind), a, b, NoSpan), q + 1))
    ensures !Has(ts, q, K.RightSquareBracket) ==>
      Bracketed(ts, pos) == Err(Fail(ts, q, if ts[pos].kind == K.HashBracketStart then MissingRValueClose else MissingLValueClose))
  {
    var c := if Has(ts, pos, K.HashBracketStart) then RValue else LValue;
    assert c == BracketOf(ts[pos].kind);
    assert Bracketed(ts, pos) ==
      if Has(ts, q, K.RightSquareBracket) then Ok(Parsed(Binary(c, a, b, NoSpan), q + 1))
      else Err(Fail(ts, q, if c == RValue then MissingRValueClose else MissingLValueClose));
  }

  /** `#[m, n]` and `[m, n]` with two numbers: a pair of Integer leaves. */
  lemma BracketOfNumbers(ts: seq<K.Token>, pos: nat)
    requires pos + 4 < |ts| && IsBracket(ts[pos].kind)
    requires ts[pos + 1].kind == K.Number && ts[pos + 2].kind == K.Comma
    requires ts[pos + 3].kind == K.Number && ts[pos + 4].kind == K.RightSquareBracket
    ensures Level6(ts, pos) ==
      Ok(Parsed(Binary(BracketOf(ts[pos].kind), NumberLeaf(ts[pos + 1]), NumberLeaf(ts[pos + 3]), NoSpan), pos + 5))
  {
    NumberExpression(ts, pos + 1);
    NumberExpression(ts, pos + 3);
    OperandsShape(ts, pos + 1, NumberLeaf(ts[pos + 1]), pos + 2, NumberLeaf(ts[pos + 3]), pos + 4);
    BracketShape(ts, pos, NumberLeaf(ts[pos + 1]), NumberLeaf(ts[pos + 3]), pos + 4);
  }

  /** A number followed by no binary operator is a whole expression. */
  lemma NumberExpression(ts: seq<K.Token>, p: nat)
    requires p < |ts| && ts[p].kind == K.Number && Ends(ts, 1, p + 1)
    ensures Expression(ts, p) == Ok(Parsed(NumberLeaf(ts[p]), p + 1))
  {
    NumberOperand(ts, p);
    Climb(ts, 1, p, NumberLeaf(ts[p]), p + 1);
  }

  /**
   * `sum(a, b)`, `mean(a, b)`, `min(a, b)` and `max(a, b)`: once the
   * keyword, the `(` and both operands are read, what follows the operands
   * decides the call (see `ClosingShape`).
   */
  lemma StatisticShape(ts: seq<K.Token>, pos: nat, a: Node, b: Node, q: nat)
    requires pos + 1 < |ts| && IsStatistic(ts[pos].kind)
    requires ts[pos + 1].kind == K.LeftParenthesis && Operands(ts, pos + 2) == Ok(Pair(a, b, q))
    ensures Level6(ts, pos) == CloseStatistic(ts, ts[pos].text, Pair(a, b, q))
  {
    StatisticLevel(ts, pos);
    OpenStatistic(ts, ts[pos].text, pos + 1, a, b, q);
  }

  /**
   * The end of a statistical call: the node class is chosen by the
   * keyword's text once the `)` is read; a text that names none of the four
   * is an unknown function, reported after the `)`; a missing `)` is
   * reported where it should be.
   */
  lemma ClosingShape(ts: seq<K.Token>, name: string, o: Pair)
    requires o.next <= |ts|
    ensures Has(ts, o.next, K.RightParenthesis) && StatisticOf(name).Some? ==>
      CloseStatistic(ts, name, o) == Ok(Parsed(Binary(StatisticOf(name).value, o.first, o.second, NoSpan), o.next + 1))
    ensures Has(ts, o.next, K.RightParenthesis) && StatisticOf(name).None? ==>
      CloseStatistic(ts, name, o) == Err(Fail(ts, o.next + 1, UnknownFunction(name)))
    ensures !Has(ts, o.next, K.RightParenthesis) ==>
      CloseStatistic(ts, name, o) == Err(Fail(ts, o.next, MissingCallClose(name)))
  {
  }

  /** The operand level hands the four statistical keywords to the call production. */
  lemma StatisticLevel(ts: seq<K.Token>, pos: nat)
    requires pos < |ts| && IsStatistic(ts[pos].kind)
    ensures Level6(ts, pos) == StatisticCall(ts, ts[pos].text, pos + 1)
  {
    AtomLevel(ts, pos);
    StatisticAtom(ts, pos);
  }

  lemma StatisticAtom(ts: seq<K.Token>, pos: nat)
    requires pos < |ts| && IsStatistic(ts[pos].kind)
    ensures Level8(ts, pos) == StatisticCall(ts, ts[pos].text, pos + 1)
  {
  }

  /** After an opening parenthesis and the operands, the call is decided by what follows them. */
  lemma OpenStatistic(ts: seq<K.Token>, name: string, pos: nat, a: Node, b: Node, q: nat)
    requires pos < |ts| && ts[pos].kind == K.LeftParenthesis && Operands(ts, pos + 1) == Ok(Pair(a, b, q))
    ensures StatisticCall(ts, name, pos) == CloseStatistic(ts, name, Pair(a, b, q))
  {
  }

  /** A statistical keyword not followed by `(` is an error right after it. */
  lemma StatisticFails(ts: seq<K.Token>, pos: nat)
    requires pos < |ts| && IsStatistic(ts[pos].kind)
    requires !Has(ts, pos + 1, K.LeftParenthesis)
    ensures Level6(ts, pos) == Err(Fail(ts, pos + 1, MissingCallOpen(ts[pos].text)))
  {
    StatisticLevel(ts, pos);
  }
}
