/**
 * The parser object: a token list and a cursor that every production moves
 * forward. Each method is proved to return what the matching function of
 * `Grammar` returns from the cursor it started at, and to leave the cursor
 * where that function says the production ends.
 */
module Parsing {
  import opened Wrappers
  import K = Tokens
  import opened Ast
  import opened Grammar

  /** A method's result and final cursor match the specification's outcome. */
  predicate Agrees(r: Result<Node, ParseError>, at: nat, spec: Result<Parsed, ParseError>) {
    match spec
    case Ok(p) => r == Ok(p.node) && at == p.next
    case Err(e) => r == Err(e)
  }

  class Parser {
    const tokens: seq<K.Token>
    var current: nat

    /** `0 <= @current <= tokens.length`: `advance` never moves past the end. */
    predicate Valid()
      reads this
    {
      current <= |tokens|
    }

    /** `Parser.new(tokens)`: the cursor starts at the first token. */
    constructor (tokens: seq<K.Token>)
      ensures this.tokens == tokens && current == 0 && Valid()
    {
      this.tokens := tokens;
      current := 0;
    }

    /** `at_end?` */
    predicate AtEnd()
      reads this
    {
      current >= |tokens|
    }

    /** `has(type)` */
    predicate HasKind(k: K.Kind)
      reads this
    {
      Has(tokens, current, k)
    }

    /** `has_next(type)` */
    predicate HasNextKind(k: K.Kind)
      reads this
    {
      HasNext(tokens, current, k)
    }

    /** `advance`: one step forward unless at the end. */
    method Advance()
      requires Valid()
      modifies this
      ensures Valid()
      ensures current == Grammar.Advance(tokens, old(current))
    {
      if !AtEnd() {
        current := current + 1;
      }
    }

    /** `expect(type)`: the current token, consumed, or the error naming both kinds. */
    method Expect(k: K.Kind) returns (r: Result<K.Token, ParseError>)
      requires Valid()
      modifies this
      ensures Valid()
      ensures var spec := Grammar.Expect(tokens, old(current), k);
        (spec.Ok? ==> r == Ok(spec.value.tokens[0]) && current == spec.value.next)
        && (spec.Err? ==> r == Err(spec.error))
    {
      if HasKind(k) {
        var token := tokens[current];
        Advance();
        return Ok(token);
      }
      return Err(if current < |tokens|
        then Failure(ExpectedKind(k, tokens[current].kind), tokens[current].startIndex)
        else RanOffEnd);
    }

    /** The `expect` calls of the for-loop header, made one after the other. */
    method ExpectEach(kinds: seq<K.Kind>) returns (r: Result<seq<K.Token>, ParseError>)
      requires Valid()
      modifies this
      ensures Valid()
      ensures var spec := ExpectAll(tokens, old(current), kinds);
        (spec.Ok? ==> r == Ok(spec.value.tokens) && current == spec.value.next)
        && (spec.Err? ==> r == Err(spec.error))
    {
      var taken: seq<K.Token> := [];
      var i := 0;
      assert kinds[0..] == kinds;
      while i < |kinds|
        invariant 0 <= i <= |kinds| && Valid()
        invariant ExpectAll(tokens, old(current), kinds) == Chain(taken, ExpectAll(tokens, current, kinds[i..]))
      {
        ChainStep(tokens, current, kinds[i..], taken);
        var t := Expect(kinds[i]);
        if t.Err? {
          return Err(t.error);
        }
        assert kinds[i..][1..] == kinds[i + 1..];
        taken := taken + [t.value];
        i := i + 1;
      }
      assert kinds[i..] == [] && taken + [] == taken;
      return Ok(taken);
    }

    /** `parse`: the block from the cursor on. */
    method Parse() returns (r: Result<Node, ParseError>)
      requires Valid()
      modifies this
      ensures Valid()
      ensures Agrees(r, current, BlockFrom(tokens, old(current), []))
    {
      r := Block();
    }

    /** `block`: statements up to the end of the list or before `end` or `else`. */
    method Block() returns (r: Result<Node, ParseError>)
      requires Valid()
      modifies this
      ensures Valid()
      ensures Agrees(r, current, BlockFrom(tokens, old(current), []))
      decreases |tokens| - current, 35
    {
      var statements: seq<Node> := [];
      while !AtEnd()
        invariant Valid() && old(current) <= current
        invariant BlockFrom(tokens, current, statements) == BlockFrom(tokens, old(current), [])
        decreases |tokens| - current
      {
        ghost var start := current;
        SkipLinebreaks();
        if HasKind(K.End) || HasKind(K.Else) {
          break;
        }
        var s := Statement();
        if s.Err? {
          return s;
        }
        statements := statements + [s.value];
      }
      return Ok(Node.Block(statements));
    }

    /** The inner loop of `block` that skips line breaks. */
    method SkipLinebreaks()
      requires Valid()
      modifies this
      ensures Valid()
      ensures current == Grammar.SkipLinebreaks(tokens, old(current))
    {
      while HasKind(K.Linebreak)
        invariant Valid() && old(current) <= current
        invariant Grammar.SkipLinebreaks(tokens, current) == Grammar.SkipLinebreaks(tokens, old(current))
        decreases |tokens| - current
      {
        Advance();
      }
    }

    /** The statement dispatch of `block`. */
    method Statement() returns (r: Result<Node, ParseError>)
      requires Valid()
      modifies this
      ensures Valid()
      ensures Agrees(r, current, Grammar.Statement(tokens, old(current)))
      decreases |tokens| - current, 34
    {
      if HasKind(K.If) {
        r := ParseConditional();
      } else if HasKind(K.For) {
        r := ParseForLoop();
      } else if HasKind(K.Identifier) && HasNextKind(K.Assignment) {
        r := ParseAssignment();
      } else {
        r := Expression();
      }
    }

    /** `parse_for_loop` */
    method ParseForLoop() returns (r: Result<Node, ParseError>)
      requires Valid()
      modifies this
      ensures Valid()
      ensures Agrees(r, current, Grammar.ParseForLoop(tokens, old(current)))
      decreases |tokens| - current, 33
    {
      var header := ExpectEach(ForHeader);
      if header.Err? {
        return Err(header.error);
      }
      var t := header.value;
      assert Grammar.ParseForLoop(tokens, old(current)) == ForLoopBody(tokens, t, current);
      if HasKind(K.Do) || HasKind(K.Linebreak) {
        Advance();
      } else {
        return Err(Fail(tokens, current, MissingDo));
      }
      var body := Block();
      if body.Err? {
        return body;
      }
      var close := Expect(K.End);
      if close.Err? {
        return Err(close.error);
      }
      return Ok(ForLoop(t[1], t[4], t[6], t[10], t[12], body.value));
    }

    /** `parse_conditional` */
    method ParseConditional() returns (r: Result<Node, ParseError>)
      requires Valid()
      modifies this
      ensures Valid()
      ensures Agrees(r, current, Grammar.ParseConditional(tokens, old(current)))
      decreases |tokens| - current, 33
    {
      if !HasKind(K.If) {
        return Err(Fail(tokens, current, MissingIf));
      }
      Advance();
      var condition := Expression();
      if condition.Err? {
        return condition;
      }
      assert Grammar.ParseConditional(tokens, old(current)) == Grammar.IfBlock(tokens, condition.value, current);
      r := IfBlock(condition.value);
    }

    /** After the condition: a linebreak, the if-block, then the rest. */
    method IfBlock(condition: Node) returns (r: Result<Node, ParseError>)
      requires Valid()
      modifies this
      ensures Valid()
      ensures Agrees(r, current, Grammar.IfBlock(tokens, condition, old(current)))
      decreases |tokens| - current, 36
    {
      if !HasKind(K.Linebreak) {
        return Err(Fail(tokens, current, MissingConditionLinebreak));
      }
      Advance();
      var ifBlock := Block();
      if ifBlock.Err? {
        return ifBlock;
      }
      r := ConditionalElse(condition, ifBlock.value);
    }

    /** The rest of `parse_conditional`: an optional else-block, then `end`. */
    method ConditionalElse(condition: Node, ifBlock: Node) returns (r: Result<Node, ParseError>)
      requires Valid()
      modifies this
      ensures Valid()
      ensures Agrees(r, current, Grammar.ConditionalElse(tokens, condition, ifBlock, old(current)))
      decreases |tokens| - current, 34
    {
      if HasKind(K.Else) {
        Advance();
        r := ElseBlock(condition, ifBlock);
      } else {
        r := CloseConditional(condition, ifBlock, None);
      }
    }

    /** After `else`: a linebreak, the else-block, then `end`. */
    method ElseBlock(condition: Node, ifBlock: Node) returns (r: Result<Node, ParseError>)
      requires Valid()
      modifies this
      ensures Valid()
      ensures Agrees(r, current, Grammar.ElseBlock(tokens, condition, ifBlock, old(current)))
      decreases |tokens| - current, 36
    {
      if !HasKind(K.Linebreak) {
        return Err(Fail(tokens, current, MissingElseLinebreak));
      }
      Advance();
      var elseBlock := Block();
      if elseBlock.Err? {
        return elseBlock;
      }
      r := CloseConditional(condition, ifBlock, Some(elseBlock.value));
    }

    /** The closing `end` of a conditional. */
    method CloseConditional(condition: Node, ifBlock: Node, elseBlock: Option<Node>) returns (r: Result<Node, ParseError>)
      requires Valid()
      modifies this
      ensures Valid()
      ensures Agrees(r, current, Grammar.CloseConditional(tokens, condition, ifBlock, elseBlock, old(current)))
    {
      if !HasKind(K.End) {
        return Err(Fail(tokens, current, MissingEnd));
      }
      Advance();
      return Ok(Conditional(condition, ifBlock, elseBlock));
    }

  /** `assignment`: called only on an identifier followed by `->`. */
    method ParseAssignment() returns (r: Result<Node, ParseError>)
      requires Valid() && current + 1 < |tokens|
      modifies this
      ensures Valid()
      ensures Agrees(r, current, Grammar.ParseAssignment(tokens, old(current)))
      decreases |tokens| - current, 33
    {
      var variable := tokens[current];
      Advance();
      Advance();
      var value := Expression();
      if value.Err? {
        return value;
      }
      return Ok(Node.Assignment(variable, value.value));
    }

    /** `expression` */
    method Expression() returns (r: Result<Node, ParseError>)
      requires Valid()
      modifies this
      ensures Valid()
      ensures Agrees(r, current, Grammar.Expression(tokens, old(current)))
      decreases |tokens| - current, 31
    {
      r := Level(1);
    }

    /** `level1` to `level5`: one operand, then fold the level's operators to the left. */
    method Level(level: nat) returns (r: Result<Node, ParseError>)
      requires 1 <= level <= 5 && Valid()
      modifies this
      ensures Valid()
      ensures Agrees(r, current, Grammar.Level(tokens, level, old(current)))
      decreases |tokens| - current, 2 * (16 - level)
    {
      var first := Operand(level);
      if first.Err? {
        return first;
      }
      var left := first.value;
      while current < |tokens| && OperatorOf(level, tokens[current].kind).Some?
        invariant Valid() && old(current) < current
        invariant LevelLoop(tokens, level, left, current) == Grammar.Level(tokens, level, old(current))
        decreases |tokens| - current
      {
        var operator := tokens[current];
        Advance();
        var right := Operand(level);
        if right.Err? {
          return right;
        }
        left := Binary(OperatorOf(level, operator.kind).value, left, right.value, SpanOf(operator));
      }
      return Ok(left);
    }

    /** An operand of a level: the next level up, or `level6` after `level5`. */
    method Operand(level: nat) returns (r: Result<Node, ParseError>)
      requires 1 <= level <= 5 && Valid()
      modifies this
      ensures Valid()
      ensures Agrees(r, current, Grammar.Operand(tokens, level, old(current)))
      decreases |tokens| - current, 2 * (16 - level) - 1
    {
      if level == 5 {
        r := Level6();
      } else {
        r := Level(level + 1);
      }
    }

    /** `level6`: the prefix operators. */
    method Level6() returns (r: Result<Node, ParseError>)
      requires Valid()
      modifies this
      ensures Valid()
      ensures Agrees(r, current, Grammar.Level6(tokens, old(current)))
      decreases |tokens| - current, 10
    {
      if HasKind(K.Exclamation) || HasKind(K.Minus) || HasKind(K.Tilde) {
        var operator := tokens[current];
        Advance();
        var operand := Level6();
        if operand.Err? {
          return operand;
        }
        var u := if operator.kind == K.Exclamation then NotOperation
                 else if operator.kind == K.Minus then NegationOperation
                 else BitwiseNot;
        return Ok(Unary(u, operand.value, SpanOf(operator)));
      }
      r := Level7();
    }

    /** `level7`: `float(e)` and `int(e)`. */
    method Level7() returns (r: Result<Node, ParseError>)
      requires Valid()
      modifies this
      ensures Valid()
      ensures Agrees(r, current, Grammar.Level7(tokens, old(current)))
      decreases |tokens| - current, 9
    {
      if HasKind(K.Float) || HasKind(K.Int) {
        var u := if HasKind(K.Float) then IntToFloat else FloatToInt;
        Advance();
        r := Cast(u);
      } else {
        r := Level8();
      }
    }

    /** After the cast keyword: the parenthesised operand of a cast. */
    method Cast(u: UnaryClass) returns (r: Result<Node, ParseError>)
      requires Valid()
      modifies this
      ensures Valid()
      ensures Agrees(r, current, Grammar.Cast(tokens, u, old(current)))
      decreases |tokens| - current, 9
    {
      if !HasKind(K.LeftParenthesis) {
        return Err(Fail(tokens, current, MissingCastOpen(u)));
      }
      Advance();
      var param := Expression();
      if param.Err? {
        return param;
      }
      if !HasKind(K.RightParenthesis) {
        return Err(Fail(tokens, current, MissingCastClose(u)));
      }
      Advance();
      return Ok(Unary(u, param.value, NoSpan));
    }

    /** `level8`: parentheses, cell references, calls and literals. */
    method Level8() returns (r: Result<Node, ParseError>)
      requires Valid()
      modifies this
      ensures Valid()
      ensures Agrees(r, current, Grammar.Level8(tokens, old(current)))
      decreases |tokens| - current, 8
    {
      if HasKind(K.Linebreak) {
        Advance();
        r := Expression();
      } else if HasKind(K.LeftParenthesis) {
        Advance();
        var expr := Expression();
        if expr.Err? {
          return expr;
        }
        if HasKind(K.RightParenthesis) {
          Advance();
          return expr;
        }
        return Err(Fail(tokens, current, MissingClose));
      } else if HasKind(K.HashBracketStart) || HasKind(K.LeftSquareBracket) {
        r := Bracketed();
      } else if HasKind(K.Sum) || HasKind(K.Mean) || HasKind(K.Min) || HasKind(K.Max) {
        r := Statistic();
      } else {
        r := Primitive();
      }
    }

    /** The operands of a pair: an expression, an optional comma, an expression. */
    method Operands() returns (r: Result<(Node, Node), ParseError>)
      requires Valid()
      modifies this
      ensures Valid()
      ensures var spec := Grammar.Operands(tokens, old(current));
        (spec.Ok? ==> r == Ok((spec.value.first, spec.value.second)) && current == spec.value.next)
        && (spec.Err? ==> r == Err(spec.error))
      decreases |tokens| - current, 32
    {
      var first := Expression();
      if first.Err? {
        return Err(first.error);
      }
      if HasKind(K.Comma) {
        Advance();
      }
      var second := Expression();
      if second.Err? {
        return Err(second.error);
      }
      return Ok((first.value, second.value));
    }

    /** `#[a, b]` and `[a, b]` */
    method Bracketed() returns (r: Result<Node, ParseError>)
      requires Valid() && current < |tokens| && tokens[current].kind in {K.HashBracketStart, K.LeftSquareBracket}
      modifies this
      ensures Valid()
      ensures Agrees(r, current, Grammar.Bracketed(tokens, old(current)))
      decreases |tokens| - current, 7
    {
      var c := if HasKind(K.HashBracketStart) then RValue else LValue;
      Advance();
      var o := Operands();
      if o.Err? {
        return Err(o.error);
      }
      if HasKind(K.RightSquareBracket) {
        Advance();
        return Ok(Binary(c, o.value.0, o.value.1, NoSpan));
      }
      return Err(Fail(tokens, current, if c == RValue then MissingRValueClose else MissingLValueClose));
    }

    /** The statistical calls `sum`, `mean`, `min` and `max`. */
    method Statistic() returns (r: Result<Node, ParseError>)
      requires Valid() && current < |tokens|
      modifies this
      ensures Valid()
      ensures Agrees(r, current, Grammar.Statistic(tokens, old(current)))
      decreases |tokens| - current, 7
    {
      var name := tokens[current].text;
      Advance();
      assert Grammar.Statistic(tokens, old(current)) == StatisticCall(tokens, name, current);
      if HasKind(K.LeftParenthesis) {
        Advance();
        var o := Operands();
        if o.Err? {
          return Err(o.error);
        }
        assert Grammar.Statistic(tokens, old(current)) == CloseStatistic(tokens, name, Pair(o.value.0, o.value.1, current));
        if HasKind(K.RightParenthesis) {
          Advance();
          match StatisticOf(name)
          case Some(c) => return Ok(Binary(c, o.value.0, o.value.1, NoSpan));
          case None => return Err(Fail(tokens, current, UnknownFunction(name)));
        }
        return Err(Fail(tokens, current, MissingCallClose(name)));
      }
      return Err(Fail(tokens, current, MissingCallOpen(name)));
    }

    /** Literals and variable references; anything else is an unexpected token. */
    method Primitive() returns (r: Result<Node, ParseError>)
      requires Valid()
      modifies this
      ensures Valid()
      ensures Agrees(r, current, Grammar.Primitive(tokens, old(current)))
    {
      if AtEnd() {
        return Err(RanOffEnd);
      }
      var token := tokens[current];
      if token.kind == K.Number {
        Advance();
        return Ok(IntegerPrimitive(Decimal.LeadingValue(token.text), SpanOf(token)));
      } else if token.kind == K.True || token.kind == K.False {
        Advance();
        return Ok(BooleanPrimitive(token.text == "true", SpanOf(token)));
      } else if token.kind == K.Identifier {
        Advance();
        return Ok(Reference(token.text, SpanOf(token)));
      }
      return Err(Failure(UnexpectedToken, token.startIndex));
    }
  }

  /** The outcome of a run of `expect` calls after `taken` has already been consumed. */
  function Chain(taken: seq<K.Token>, rest: Result<Taken, ParseError>): (r: Result<Taken, ParseError>)
    ensures taken == [] ==> r == rest
  {
    match rest
    case Err(e) => Err(e)
    case Ok(t) => assert [] + t.tokens == t.tokens; Ok(Taken(taken + t.tokens, t.next))
  }

  /** One more successful `expect` moves its token from the rest of the run to the tokens taken. */
  lemma ChainStep(ts: seq<K.Token>, pos: nat, kinds: seq<K.Kind>, taken: seq<K.Token>)
    requires pos <= |ts| && |kinds| > 0
    ensures Has(ts, pos, kinds[0]) ==>
      Chain(taken, ExpectAll(ts, pos, kinds)) == Chain(taken + [ts[pos]], ExpectAll(ts, pos + 1, kinds[1..]))
    ensures !Has(ts, pos, kinds[0]) ==>
      Chain(taken, ExpectAll(ts, pos, kinds)) == Err(Grammar.Expect(ts, pos, kinds[0]).error)
  {
    if Has(ts, pos, kinds[0]) {
      match ExpectAll(ts, pos + 1, kinds[1..])
      case Err(_) =>
      case Ok(rest) =>
        assert taken + ([ts[pos]] + rest.tokens) == taken + [ts[pos]] + rest.tokens;
    }
  }
}
