/**
 * The recursive-descent parser as functions of the token list and a cursor
 * position. Each function returns the node it builds and the cursor after
 * it, or the error the parser raises. The class `Parsing.Parser` runs the
 * same productions by moving a cursor field and is proved to agree with
 * these functions.
 */
module Grammar {
  import opened Wrappers
  import opened Decimal
  import K = Tokens
  import opened Ast

  /**
   * What parsing raises: the message and the start index of the current
   * token, or the `NoMethodError` of reading a field of the nil token past
   * the end of the list.
   */
  datatype ParseError = Failure(message: Message, at: int) | RanOffEnd

  /** The messages the parser raises with, one constructor per call of `error`. */
  datatype Message =
    | ExpectedKind(expected: K.Kind, found: K.Kind)
    | MissingDo
    | MissingIf
    | MissingConditionLinebreak
    | MissingElseLinebreak
    | MissingEnd
    | MissingCastOpen(cast: UnaryClass)
    | MissingCastClose(cast: UnaryClass)
    | MissingClose
    | MissingRValueClose
    | MissingLValueClose
    | MissingCallOpen(name: string)
    | MissingCallClose(name: string)
    | UnknownFunction(name: string)
    | UnexpectedToken

  /** The text of each message, as the source spells it. */
  function MessageText(m: Message): string {
    match m
    case ExpectedKind(k, found) => "Expected " + K.KindName(k) + " but found " + K.KindName(found)
    case MissingDo => "Expected 'do' or a linebreak in 'for' loop"
    case MissingIf => "Expected 'if' at the start of a conditional"
    case MissingConditionLinebreak => "Expected a linebreak after the condition"
    case MissingElseLinebreak => "Expected a linebreak after 'else'"
    case MissingEnd => "Expected 'end' to close the conditional"
    case MissingCastOpen(u) => "Expected '(' after " + CastName(u)
    case MissingCastClose(u) => "Expected closing parenthesis after " + CastName(u)
    case MissingClose => "Expected closing parenthesis"
    case MissingRValueClose => "Expected closing ']' for RValue"
    case MissingLValueClose => "Expected closing ']' for LValue"
    case MissingCallOpen(name) => "Expected '(' after " + name
    case MissingCallClose(name) => "Expected closing parenthesis for " + name + " function"
    case UnknownFunction(name) => "Unknown function " + name
    case UnexpectedToken => "Unexpected token"
  }

  /** A node and the cursor position just after it. */
  datatype Parsed = Parsed(node: Node, next: nat)

  /** The two operands of `#[a, b]`, `[a, b]` and the statistical calls. */
  datatype Pair = Pair(first: Node, second: Node, next: nat)

  /** Tokens consumed by a run of `expect` calls. */
  datatype Taken = Taken(tokens: seq<K.Token>, next: nat)

  /** The keyword of a cast: `float` converts an integer, `int` a float. */
  function CastName(u: UnaryClass): string {
    if u == IntToFloat then "float" else "int"
  }

  /** The text `error` raises, for the errors that carry a message. */
  function ErrorText(e: ParseError): (s: string)
    requires e.Failure?
    ensures var m := MessageText(e.message);
      |s| > 7 + |m| && s[..7] == "Error: " && s[7..7 + |m|] == m
  {
    var m := MessageText(e.message);
    ErrorLayout(m, IntToString(e.at));
    "Error: " + m + " at index " + IntToString(e.at)
  }

  /** Where the message sits in the raised text. */
  lemma ErrorLayout(m: string, at: string)
    ensures var s := "Error: " + m + " at index " + at;
      |s| > 7 + |m| && s[..7] == "Error: " && s[7..7 + |m|] == m
  {
    var s := "Error: " + m + " at index " + at;
    assert s == "Error: " + (m + " at index " + at);
  }

  /** `has(type)`: not at the end, and the current token has that kind. */
  predicate Has(ts: seq<K.Token>, pos: nat, k: K.Kind) {
    pos < |ts| && ts[pos].kind == k
  }

  /** `has_next(type)`: there is a token after the current one, and it has that kind. */
  predicate HasNext(ts: seq<K.Token>, pos: nat, k: K.Kind) {
    !(pos >= |ts| - 1) && ts[pos + 1].kind == k
  }

  /** `advance`: one step forward unless already at the end. */
  function Advance(ts: seq<K.Token>, pos: nat): (p: nat)
    ensures pos <= |ts| ==> p <= |ts|
    ensures p == (if pos >= |ts| then pos else pos + 1)
  {
    if pos >= |ts| then pos else pos + 1
  }

  /** `error(message)` at the cursor: it raises with the current token's start index. */
  function Fail(ts: seq<K.Token>, pos: nat, message: Message): (e: ParseError)
    ensures pos < |ts| <==> e.Failure?
    ensures pos < |ts| ==> e == Failure(message, ts[pos].startIndex)
  {
    if pos < |ts| then Failure(message, ts[pos].startIndex) else RanOffEnd
  }

  /** `expect(type)`: the current token when it has that kind, else an error naming both kinds. */
  function Expect(ts: seq<K.Token>, pos: nat, k: K.Kind): (r: Result<Taken, ParseError>)
    ensures r.Ok? <==> Has(ts, pos, k)
    ensures r.Ok? ==> r.value == Taken([ts[pos]], pos + 1)
    ensures r.Err? && pos < |ts| ==>
      r.error == Failure(ExpectedKind(k, ts[pos].kind), ts[pos].startIndex)
    ensures r.Err? && pos >= |ts| ==> r.error == RanOffEnd
  {
    if Has(ts, pos, k) then Ok(Taken([ts[pos]], pos + 1))
    else if pos < |ts| then
      Err(Failure(ExpectedKind(k, ts[pos].kind), ts[pos].startIndex))
    else Err(RanOffEnd)
  }

  /** A run of `expect` calls, one per kind, stopping at the first that fails. */
  function ExpectAll(ts: seq<K.Token>, pos: nat, kinds: seq<K.Kind>): (r: Result<Taken, ParseError>)
    requires pos <= |ts|
    ensures r.Ok? ==> r.value.next == pos + |kinds| && r.value.next <= |ts| && |r.value.tokens| == |kinds|
    decreases |kinds|
  {
    if |kinds| == 0 then Ok(Taken([], pos))
    else
      match Expect(ts, pos, kinds[0])
      case Err(e) => Err(e)
      case Ok(t) =>
        match ExpectAll(ts, pos + 1, kinds[1..])
        case Err(e) => Err(e)
        case Ok(rest) => Ok(Taken(t.tokens + rest.tokens, rest.next))
  }

  /** The run of `expect` calls succeeds exactly when every token has the kind expected of it. */
  lemma {:induction false} ExpectAllMatches(ts: seq<K.Token>, pos: nat, kinds: seq<K.Kind>)
    requires pos <= |ts|
    ensures ExpectAll(ts, pos, kinds).Ok? <==> forall i :: 0 <= i < |kinds| ==> Has(ts, pos + i, kinds[i])
    decreases |kinds|
  {
    if |kinds| > 0 && Has(ts, pos, kinds[0]) {
      ExpectAllMatches(ts, pos + 1, kinds[1..]);
      if ExpectAll(ts, pos + 1, kinds[1..]).Err? {
        var j :| 0 <= j < |kinds[1..]| && !Has(ts, pos + 1 + j, kinds[1..][j]);
        assert !Has(ts, pos + (j + 1), kinds[j + 1]);
      } else {
        forall i | 1 <= i < |kinds|
          ensures Has(ts, pos + i, kinds[i])
        {
          assert kinds[i] == kinds[1..][i - 1];
        }
      }
    } else if |kinds| > 0 {
      assert !Has(ts, pos + 0, kinds[0]);
    }
  }

  /** On success the run of `expect` calls returns the tokens it checked, in order. */
  lemma {:induction false} ExpectAllTokens(ts: seq<K.Token>, pos: nat, kinds: seq<K.Kind>)
    requires pos <= |ts| && ExpectAll(ts, pos, kinds).Ok?
    ensures forall i :: 0 <= i < |kinds| ==> ExpectAll(ts, pos, kinds).value.tokens[i] == ts[pos + i]
    decreases |kinds|
  {
    if |kinds| > 0 {
      ExpectAllTokens(ts, pos + 1, kinds[1..]);
      var tail := ExpectAll(ts, pos + 1, kinds[1..]).value.tokens;
      var all := ExpectAll(ts, pos, kinds).value.tokens;
      assert all == [ts[pos]] + tail;
      forall i | 1 <= i < |kinds|
        ensures all[i] == ts[pos + i]
      {
        assert all[i] == tail[i - 1];
      }
    }
  }

  /** Success consumes at least one token and stays inside the list. */
  predicate Consumes(ts: seq<K.Token>, pos: nat, r: Result<Parsed, ParseError>) {
    r.Ok? ==> pos < r.value.next <= |ts|
  }

  /** The binary operator a token kind stands for at levels 1 to 5 of the precedence table. */
  function OperatorOf(level: nat, k: K.Kind): Option<BinaryClass> {
    if level == 1 then
      if k == K.And then Some(AndOperation)
      else if k == K.Or then Some(OrOperation)
      else None
    else if level == 2 then
      if k == K.EqualSign then Some(EqualsOperation)
      else if k == K.NotEqual then Some(NotEqualsOperation)
      else if k == K.LessThan then Some(LessThanOperation)
      else if k == K.LessThanEqual then Some(LessThanOrEqualOperation)
      else if k == K.MoreThan then Some(MoreThanOperation)
      else if k == K.MoreThanEqual then Some(MoreThanOrEqualOperation)
      else None
    else if level == 3 then
      if k == K.Plus then Some(AdditionOperation)
      else if k == K.Minus then Some(SubtractionOperation)
      else None
    else if level == 4 then
      if k == K.Asterisk then Some(MultiplicationOperation)
      else if k == K.Slash then Some(DivisionOperation)
      else if k == K.Percent then Some(ModuloOperation)
      else if k == K.DoubleAsterisk then Some(ExponentiationOperation)
      else None
    else if level == 5 then
      if k == K.Ampersand then Some(BitwiseAnd)
      else if k == K.Pipe then Some(BitwiseOr)
      else if k == K.Caret then Some(BitwiseXor)
      else if k == K.LeftShift then Some(BitwiseLeftShift)
      else if k == K.RightShift then Some(BitwiseRightShift)
      else None
    else None
  }

  /** The span of an operator token, which binary and prefix nodes keep. */
  function SpanOf(t: K.Token): Span {
    Span(t.startIndex, t.endIndex)
  }

  /** `parse`: the top-level block. Tokens after a stray `end` or `else` are ignored. */
  function Parse(ts: seq<K.Token>): (r: Result<Node, ParseError>)
    ensures r.Ok? ==> r.value.Block?
  {
    match BlockFrom(ts, 0, [])
    case Err(e) => Err(e)
    case Ok(p) => Ok(p.node)
  }

  /** Skip the line breaks at the cursor. */
  function SkipLinebreaks(ts: seq<K.Token>, pos: nat): (p: nat)
    requires pos <= |ts|
    ensures pos <= p <= |ts| && !Has(ts, p, K.Linebreak)
    ensures forall i :: pos <= i < p ==> ts[i].kind == K.Linebreak
    decreases |ts| - pos
  {
    if Has(ts, pos, K.Linebreak) then SkipLinebreaks(ts, pos + 1) else pos
  }

  /**
   * `block`, from the cursor on, with the statements gathered so far: skip
   * line breaks, stop before `end` or `else` or at the end of the list, and
   * otherwise parse one more statement.
   */
  function BlockFrom(ts: seq<K.Token>, pos: nat, acc: seq<Node>): (r: Result<Parsed, ParseError>)
    requires pos <= |ts|
    ensures r.Ok? ==> pos <= r.value.next <= |ts| && r.value.node.Block?
    decreases |ts| - pos, 33
  {
    if pos >= |ts| then Ok(Parsed(Block(acc), pos))
    else
      var p := SkipLinebreaks(ts, pos);
      if Has(ts, p, K.End) || Has(ts, p, K.Else) then Ok(Parsed(Block(acc), p))
      else
        match Statement(ts, p)
        case Err(e) => Err(e)
        case Ok(s) => BlockFrom(ts, s.next, acc + [s.node])
  }

  /** One statement of a block: conditional, for-loop, assignment or expression, tried in that order. */
  function Statement(ts: seq<K.Token>, pos: nat): (r: Result<Parsed, ParseError>)
    requires pos <= |ts|
    ensures Consumes(ts, pos, r)
    decreases |ts| - pos, 32
  {
    if Has(ts, pos, K.If) then ParseConditional(ts, pos)
    else if Has(ts, pos, K.For) then ParseForLoop(ts, pos)
    else if Has(ts, pos, K.Identifier) && HasNext(ts, pos, K.Assignment) then ParseAssignment(ts, pos)
    else Expression(ts, pos)
  }

  /** `parse_for_loop`: the header `for x in [n, n]..[n, n]`, then `do` or a line break, a body and `end`. */
  function ParseForLoop(ts: seq<K.Token>, pos: nat): (r: Result<Parsed, ParseError>)
    requires pos <= |ts|
    ensures Consumes(ts, pos, r)
    decreases |ts| - pos, 18
  {
    match ExpectAll(ts, pos, ForHeader)
    case Err(e) => Err(e)
    case Ok(h) => ForLoopBody(ts, h.tokens, h.next)
  }

  /** The rest of `parse_for_loop` after its header: `do` or a line break, the body and `end`. */
  function ForLoopBody(ts: seq<K.Token>, header: seq<K.Token>, pos: nat): (r: Result<Parsed, ParseError>)
    requires pos <= |ts| && |header| == |ForHeader|
    ensures Consumes(ts, pos, r)
    decreases |ts| - pos, 17
  {
    if Has(ts, pos, K.Do) || Has(ts, pos, K.Linebreak) then
      match BlockFrom(ts, pos + 1, [])
      case Err(e) => Err(e)
      case Ok(b) =>
        match Expect(ts, b.next, K.End)
        case Err(e) => Err(e)
        case Ok(e) =>
          var t := header;
          Ok(Parsed(ForLoop(t[1], t[4], t[6], t[10], t[12], b.node), e.next))
    else Err(Fail(ts, pos, MissingDo))
  }

  /** The kinds `parse_for_loop` expects, in order, before the body. */
  const ForHeader: seq<K.Kind> := [
    K.For, K.Identifier, K.In,
    K.LeftSquareBracket, K.Number, K.Comma, K.Number, K.RightSquareBracket,
    K.DotDot,
    K.LeftSquareBracket, K.Number, K.Comma, K.Number, K.RightSquareBracket
  ]

  /**
   * `parse_conditional`: `if`, the condition, a line break, the if-block,
   * optionally `else`, a line break and the else-block, then `end`.
   */
  function ParseConditional(ts: seq<K.Token>, pos: nat): (r: Result<Parsed, ParseError>)
    requires pos <= |ts|
    ensures Consumes(ts, pos, r)
    decreases |ts| - pos, 18
  {
    if !Has(ts, pos, K.If) then Err(Fail(ts, pos, MissingIf))
    else
      match Expression(ts, pos + 1)
      case Err(e) => Err(e)
      case Ok(c) =>
        IfBlock(ts, c.node, c.next)
  }

  /** After the condition: a linebreak, the if-block, then the rest. */
  function IfBlock(ts: seq<K.Token>, c: Node, pos: nat): (r: Result<Parsed, ParseError>)
    requires pos <= |ts|
    ensures Consumes(ts, pos, r)
    decreases |ts| - pos, 21
  {
    if !Has(ts, pos, K.Linebreak) then Err(Fail(ts, pos, MissingConditionLinebreak))
    else
      match BlockFrom(ts, pos + 1, [])
      case Err(e) => Err(e)
      case Ok(ib) => ConditionalElse(ts, c, ib.node, ib.next)
  }

  /** The rest of `parse_conditional` after the if-block: an optional else-block, then `end`. */
  function ConditionalElse(ts: seq<K.Token>, c: Node, ib: Node, pos: nat): (r: Result<Parsed, ParseError>)
    requires pos <= |ts|
    ensures Consumes(ts, pos, r)
    decreases |ts| - pos, 17
  {
    if Has(ts, pos, K.Else) then
      ElseBlock(ts, c, ib, pos + 1)
    else CloseConditional(ts, c, ib, None, pos)
  }

  /** After `else`: a linebreak, the else-block and the closing `end`. */
  function ElseBlock(ts: seq<K.Token>, c: Node, ib: Node, pos: nat): (r: Result<Parsed, ParseError>)
    requires pos <= |ts|
    ensures Consumes(ts, pos, r)
    decreases |ts| - pos, 21
  {
    if !Has(ts, pos, K.Linebreak) then Err(Fail(ts, pos, MissingElseLinebreak))
    else
      match BlockFrom(ts, pos + 1, [])
      case Err(e) => Err(e)
      case Ok(eb) => CloseConditional(ts, c, ib, Some(eb.node), eb.next)
  }

  /** The closing `end` of a conditional. */
  function CloseConditional(ts: seq<K.Token>, c: Node, ib: Node, eb: Option<Node>, pos: nat): (r: Result<Parsed, ParseError>)
    requires pos <= |ts|
    ensures Consumes(ts, pos, r)
    ensures r.Ok? <==> Has(ts, pos, K.End)
    ensures r.Ok? ==> r.value == Parsed(Conditional(c, ib, eb), pos + 1)
  {
    if !Has(ts, pos, K.End) then Err(Fail(ts, pos, MissingEnd))
    else Ok(Parsed(Conditional(c, ib, eb), pos + 1))
  }

  /** `assignment`: the identifier token, then skip it and the arrow, then the expression. */
  function ParseAssignment(ts: seq<K.Token>, pos: nat): (r: Result<Parsed, ParseError>)
    requires pos + 1 < |ts|
    ensures Consumes(ts, pos, r)
    decreases |ts| - pos, 18
  {
    match Expression(ts, pos + 2)
    case Err(e) => Err(e)
    case Ok(x) => Ok(Parsed(Assignment(ts[pos], x.node), x.next))
  }

  /** `expression`: the loosest precedence level. */
  function Expression(ts: seq<K.Token>, pos: nat): (r: Result<Parsed, ParseError>)
    requires pos <= |ts|
    ensures Consumes(ts, pos, r)
    decreases |ts| - pos, 31
  {
    Level(ts, 1, pos)
  }

  /**
   * `level1` to `level5`: an operand of the next level, then a loop over the
   * level's operators that folds to the left.
   */
  function Level(ts: seq<K.Token>, level: nat, pos: nat): (r: Result<Parsed, ParseError>)
    requires 1 <= level <= 5 && pos <= |ts|
    ensures Consumes(ts, pos, r)
    decreases |ts| - pos, 2 * (16 - level)
  {
    match Operand(ts, level, pos)
    case Err(e) => Err(e)
    case Ok(l) => LevelLoop(ts, level, l.node, l.next)
  }

  /** An operand of a level: the next level up, or `level6` after `level5`. */
  function Operand(ts: seq<K.Token>, level: nat, pos: nat): (r: Result<Parsed, ParseError>)
    requires 1 <= level <= 5 && pos <= |ts|
    ensures Consumes(ts, pos, r)
    decreases |ts| - pos, 2 * (16 - level) - 1
  {
    if level == 5 then Level6(ts, pos) else Level(ts, level + 1, pos)
  }

  /** The `while` loop of `level1` to `level5`, with the tree folded so far. */
  function LevelLoop(ts: seq<K.Token>, level: nat, left: Node, pos: nat): (r: Result<Parsed, ParseError>)
    requires 1 <= level <= 5 && pos <= |ts|
    ensures r.Ok? ==> pos <= r.value.next <= |ts|
    decreases |ts| - pos, 0
  {
    if pos < |ts| && OperatorOf(level, ts[pos].kind).Some? then
      var op := ts[pos];
      match Operand(ts, level, pos + 1)
      case Err(e) => Err(e)
      case Ok(rt) => LevelLoop(ts, level, Binary(OperatorOf(level, op.kind).value, left, rt.node, SpanOf(op)), rt.next)
    else Ok(Parsed(left, pos))
  }

  /** `level6`: prefix `!`, `-` and `~`, each applied to another `level6`. */
  function Level6(ts: seq<K.Token>, pos: nat): (r: Result<Parsed, ParseError>)
    requires pos <= |ts|
    ensures Consumes(ts, pos, r)
    decreases |ts| - pos, 10
  {
    if Has(ts, pos, K.Exclamation) || Has(ts, pos, K.Minus) || Has(ts, pos, K.Tilde) then
      var op := ts[pos];
      var u := if op.kind == K.Exclamation then NotOperation
               else if op.kind == K.Minus then NegationOperation
               else BitwiseNot;
      match Level6(ts, pos + 1)
      case Err(e) => Err(e)
      case Ok(x) => Ok(Parsed(Unary(u, x.node, SpanOf(op)), x.next))
    else Level7(ts, pos)
  }

  /** `level7`: the casts `float(e)` and `int(e)`. */
  function Level7(ts: seq<K.Token>, pos: nat): (r: Result<Parsed, ParseError>)
    requires pos <= |ts|
    ensures Consumes(ts, pos, r)
    decreases |ts| - pos, 9
  {
    if Has(ts, pos, K.Float) || Has(ts, pos, K.Int) then
      var u := if Has(ts, pos, K.Float) then IntToFloat else FloatToInt;
      Cast(ts, u, pos + 1)
    else Level8(ts, pos)
  }

  /** After the cast keyword: the parenthesised operand of a cast. */
  function Cast(ts: seq<K.Token>, u: UnaryClass, pos: nat): (r: Result<Parsed, ParseError>)
    requires pos <= |ts|
    ensures Consumes(ts, pos, r)
    decreases |ts| - pos, 17
  {
    if !Has(ts, pos, K.LeftParenthesis) then Err(Fail(ts, pos, MissingCastOpen(u)))
    else
      match Expression(ts, pos + 1)
      case Err(e) => Err(e)
      case Ok(x) =>
        if Has(ts, x.next, K.RightParenthesis) then Ok(Parsed(Unary(u, x.node, NoSpan), x.next + 1))
        else Err(Fail(ts, x.next, MissingCastClose(u)))
  }

  /** The two operands of a bracketed pair or a call: an expression, an optional comma, an expression. */
  function Operands(ts: seq<K.Token>, pos: nat): (r: Result<Pair, ParseError>)
    requires pos <= |ts|
    ensures r.Ok? ==> pos < r.value.next <= |ts|
    decreases |ts| - pos, 32
  {
    match Expression(ts, pos)
    case Err(e) => Err(e)
    case Ok(a) =>
      var q := if Has(ts, a.next, K.Comma) then a.next + 1 else a.next;
      match Expression(ts, q)
      case Err(e) => Err(e)
      case Ok(b) => Ok(Pair(a.node, b.node, b.next))
  }

  /** The node class of a statistical function, by its name. */
  function StatisticOf(name: string): Option<BinaryClass> {
    if name == "sum" then Some(SumOperation)
    else if name == "mean" then Some(MeanOperation)
    else if name == "min" then Some(MinOperation)
    else if name == "max" then Some(MaxOperation)
    else None
  }

  /**
   * `level8`: a line break before an expression, a parenthesised
   * expression, `#[a, b]`, `[a, b]`, a statistical call, or a literal or
   * variable token.
   */
  function Level8(ts: seq<K.Token>, pos: nat): (r: Result<Parsed, ParseError>)
    requires pos <= |ts|
    ensures Consumes(ts, pos, r)
    decreases |ts| - pos, 8
  {
    if Has(ts, pos, K.Linebreak) then Expression(ts, pos + 1)
    else if Has(ts, pos, K.LeftParenthesis) then
      match Expression(ts, pos + 1)
      case Err(e) => Err(e)
      case Ok(x) =>
        if Has(ts, x.next, K.RightParenthesis) then Ok(Parsed(x.node, x.next + 1))
        else Err(Fail(ts, x.next, MissingClose))
    else if Has(ts, pos, K.HashBracketStart) || Has(ts, pos, K.LeftSquareBracket) then Bracketed(ts, pos)
    else if Has(ts, pos, K.Sum) || Has(ts, pos, K.Mean) || Has(ts, pos, K.Min) || Has(ts, pos, K.Max) then Statistic(ts, pos)
    else Primitive(ts, pos)
  }

  /** The literal and variable tokens of `level8`; any other token is unexpected. */
  function Primitive(ts: seq<K.Token>, pos: nat): (r: Result<Parsed, ParseError>)
    requires pos <= |ts|
    ensures Consumes(ts, pos, r)
    ensures r.Ok? ==> r.value.next == pos + 1
    ensures pos == |ts| ==> r == Err(RanOffEnd)
  {
    if pos == |ts| then Err(RanOffEnd)
    else
      var t := ts[pos];
      if t.kind == K.Number then Ok(Parsed(IntegerPrimitive(LeadingValue(t.text), SpanOf(t)), pos + 1))
      else if t.kind == K.True || t.kind == K.False then Ok(Parsed(BooleanPrimitive(t.text == "true", SpanOf(t)), pos + 1))
      else if t.kind == K.Identifier then Ok(Parsed(Reference(t.text, SpanOf(t)), pos + 1))
      else Err(Failure(UnexpectedToken, t.startIndex))
  }

  /** `#[a, b]` builds an `RValue` node and `[a, b]` an `LValue` node; both need the closing `]`. */
  function Bracketed(ts: seq<K.Token>, pos: nat): (r: Result<Parsed, ParseError>)
    requires pos < |ts| && ts[pos].kind in {K.HashBracketStart, K.LeftSquareBracket}
    ensures Consumes(ts, pos, r)
    decreases |ts| - pos, 7
  {
    var c := if Has(ts, pos, K.HashBracketStart) then RValue else LValue;
    match Operands(ts, pos + 1)
    case Err(e) => Err(e)
    case Ok(o) =>
      if Has(ts, o.next, K.RightSquareBracket) then Ok(Parsed(Binary(c, o.first, o.second, NoSpan), o.next + 1))
      else Err(Fail(ts, o.next, if c == RValue then MissingRValueClose else MissingLValueClose))
  }

  /**
   * A statistical call `name(a, b)`: the node class is chosen by the
   * token's text after the closing parenthesis has been consumed.
   */
  function Statistic(ts: seq<K.Token>, pos: nat): (r: Result<Parsed, ParseError>)
    requires pos < |ts|
    ensures Consumes(ts, pos, r)
    decreases |ts| - pos, 7
  {
    var name := ts[pos].text;
    StatisticCall(ts, name, pos + 1)
  }

  /** After the function name: the opening parenthesis, the operands and what follows them. */
  function StatisticCall(ts: seq<K.Token>, name: string, pos: nat): (r: Result<Parsed, ParseError>)
    requires pos <= |ts|
    ensures Consumes(ts, pos, r)
    decreases |ts| - pos, 18
  {
    if !Has(ts, pos, K.LeftParenthesis) then Err(Fail(ts, pos, MissingCallOpen(name)))
    else
      match Operands(ts, pos + 1)
      case Err(e) => Err(e)
      case Ok(o) => CloseStatistic(ts, name, o)
  }

  /** The closing parenthesis of a statistical call, and the node class its name selects. */
  function CloseStatistic(ts: seq<K.Token>, name: string, o: Pair): (r: Result<Parsed, ParseError>)
    requires o.next <= |ts|
    ensures r.Ok? ==> o.next < r.value.next <= |ts|
  {
    if Has(ts, o.next, K.RightParenthesis) then
      match StatisticOf(name)
      case Some(c) => Ok(Parsed(Binary(c, o.first, o.second, NoSpan), o.next + 1))
      case None => Err(Fail(ts, o.next + 1, UnknownFunction(name)))
    else Err(Fail(ts, o.next, MissingCallClose(name)))
  }
}
