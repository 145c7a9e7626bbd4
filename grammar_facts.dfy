/**
 * What the grammar promises about the trees it builds: every binary level
 * folds to the left, a tighter level groups first, prefix operators bind
 * tighter than any binary operator, blocks stop before `end` and `else`,
 * and conditionals and for-loops have the shape their keywords demand.
 */
module GrammarFacts {
  import opened Wrappers
  import opened Decimal
  import K = Tokens
  import opened Ast
  import opened Grammar

  // ------------------------------------------------------------ precedence

  /** The precedence level of a binary operator token, 0 for every other token. */
  function BinaryLevel(k: K.Kind): nat {
    if OperatorOf(1, k).Some? then 1
    else if OperatorOf(2, k).Some? then 2
    else if OperatorOf(3, k).Some? then 3
    else if OperatorOf(4, k).Some? then 4
    else if OperatorOf(5, k).Some? then 5
    else 0
  }

  /** A token kind is an operator of level `l` exactly when its binary level is `l`. */
  lemma LevelOfOperator(l: nat, k: K.Kind)
    requires 1 <= l <= 5
    ensures OperatorOf(l, k).Some? <==> BinaryLevel(k) == l
  {
    if OperatorOf(l, k).Some? {
      forall l' | 1 <= l' < l
        ensures OperatorOf(l', k).None?
      {
        if OperatorOf(l', k).Some? {
          OneLevelPerOperator(k, l', l);
        }
      }
    }
  }

  /** No binary operator of level `lo` or tighter at `q`: a level loop from `lo` up stops there. */
  predicate Ends(ts: seq<K.Token>, lo: nat, q: nat) {
    q >= |ts| || BinaryLevel(ts[q].kind) < lo
  }

  /** A token kind stands for a binary operator at one level only. */
  lemma OneLevelPerOperator(k: K.Kind, l1: nat, l2: nat)
    requires OperatorOf(l1, k).Some? && OperatorOf(l2, k).Some?
    ensures l1 == l2
  {
    if l1 == 1 {
      assert k == K.And || k == K.Or;
    } else if l1 == 2 {
      assert k in {K.EqualSign, K.NotEqual, K.LessThan, K.LessThanEqual, K.MoreThan, K.MoreThanEqual};
    } else if l1 == 3 {
      assert k == K.Plus || k == K.Minus;
    } else if l1 == 4 {
      assert k in {K.Asterisk, K.Slash, K.Percent, K.DoubleAsterisk};
    } else {
      assert k in {K.Ampersand, K.Pipe, K.Caret, K.LeftShift, K.RightShift};
    }
  }

  /** The leaf a `:number` token parses to. */
  function NumberLeaf(t: K.Token): Node {
    IntegerPrimitive(LeadingValue(t.text), SpanOf(t))
  }

  /** A `:number` token is a complete prefix-level operand. */
  lemma NumberOperand(ts: seq<K.Token>, pos: nat)
    requires pos < |ts| && ts[pos].kind == K.Number
    ensures Level6(ts, pos) == Ok(Parsed(NumberLeaf(ts[pos]), pos + 1))
  {
    NumberAtom(ts, pos);
    assert !Has(ts, pos, K.Float) && !Has(ts, pos, K.Int);
    assert Level7(ts, pos) == Level8(ts, pos);
    assert !Has(ts, pos, K.Exclamation) && !Has(ts, pos, K.Minus) && !Has(ts, pos, K.Tilde);
  }

  lemma NumberAtom(ts: seq<K.Token>, pos: nat)
    requires pos < |ts| && ts[pos].kind == K.Number
    ensures Level8(ts, pos) == Ok(Parsed(NumberLeaf(ts[pos]), pos + 1))
  {
    assert Primitive(ts, pos) == Ok(Parsed(NumberLeaf(ts[pos]), pos + 1));
    assert !Has(ts, pos, K.Linebreak) && !Has(ts, pos, K.LeftParenthesis);
    assert !Has(ts, pos, K.HashBracketStart) && !Has(ts, pos, K.LeftSquareBracket);
    assert !Has(ts, pos, K.Sum) && !Has(ts, pos, K.Mean) && !Has(ts, pos, K.Min) && !Has(ts, pos, K.Max);
  }

  /** A level starts with its operand and hands it to the level's loop. */
  lemma LevelStart(ts: seq<K.Token>, level: nat, pos: nat, x: Node, q: nat)
    requires 1 <= level <= 5 && pos <= |ts|
    requires Operand(ts, level, pos) == Ok(Parsed(x, q))
    ensures q <= |ts| && Level(ts, level, pos) == LevelLoop(ts, level, x, q)
  {
  }

  /** An operator of the level folds the next operand into the tree so far. */
  lemma LoopStep(ts: seq<K.Token>, level: nat, left: Node, pos: nat, y: Node, q: nat)
    requires 1 <= level <= 5 && pos < |ts| && OperatorOf(level, ts[pos].kind).Some?
    requires Operand(ts, level, pos + 1) == Ok(Parsed(y, q))
    ensures q <= |ts|
    ensures LevelLoop(ts, level, left, pos) ==
      LevelLoop(ts, level, Binary(OperatorOf(level, ts[pos].kind).value, left, y, SpanOf(ts[pos])), q)
  {
  }

  /** Anything but an operator of the level ends its loop. */
  lemma LoopStop(ts: seq<K.Token>, level: nat, left: Node, pos: nat)
    requires 1 <= level <= 5 && pos <= |ts| && Ends(ts, level, pos)
    ensures LevelLoop(ts, level, left, pos) == Ok(Parsed(left, pos))
  {
    if pos < |ts| {
      LevelOfOperator(level, ts[pos].kind);
    }
  }

  /**
   * What a prefix-level operand parses to is what every binary level parses
   * to, when no operator of that level or a tighter one follows it.
   */
  lemma {:induction false} Climb(ts: seq<K.Token>, level: nat, pos: nat, x: Node, q: nat)
    requires 1 <= level <= 5 && pos <= |ts|
    requires Level6(ts, pos) == Ok(Parsed(x, q)) && Ends(ts, level, q)
    ensures Level(ts, level, pos) == Ok(Parsed(x, q))
    decreases 5 - level
  {
    if level < 5 {
      Climb(ts, level + 1, pos, x, q);
      OperandIsNext(ts, level, pos);
    } else {
      OperandOfTightest(ts, pos);
    }
    LevelStart(ts, level, pos, x, q);
    LoopStop(ts, level, x, q);
  }

  /** The same for the operand of a level, which starts one level tighter. */
  lemma OperandClimb(ts: seq<K.Token>, level: nat, pos: nat, x: Node, q: nat)
    requires 1 <= level <= 5 && pos <= |ts|
    requires Level6(ts, pos) == Ok(Parsed(x, q)) && Ends(ts, level + 1, q)
    ensures Operand(ts, level, pos) == Ok(Parsed(x, q))
  {
    if level < 5 {
      Climb(ts, level + 1, pos, x, q);
      OperandIsNext(ts, level, pos);
    } else {
      OperandOfTightest(ts, pos);
    }
  }

  /** What a tighter level parses to, a looser one parses to alike when no operator in between follows. */
  lemma {:induction false} Lift(ts: seq<K.Token>, lo: nat, hi: nat, pos: nat, x: Node, q: nat)
    requires 1 <= lo <= hi <= 5 && pos <= |ts|
    requires Level(ts, hi, pos) == Ok(Parsed(x, q)) && Ends(ts, lo, q)
    ensures Level(ts, lo, pos) == Ok(Parsed(x, q))
    decreases hi - lo
  {
    if lo < hi {
      Lift(ts, lo + 1, hi, pos, x, q);
      LevelStart(ts, lo, pos, x, q);
      LoopStop(ts, lo, x, q);
    }
  }

  /** A level's loop at one of its operators followed by one prefix-level operand, and then the end of the level. */
  lemma FoldOperand(ts: seq<K.Token>, level: nat, left: Node, q: nat, y: Node, r: nat)
    requires 1 <= level <= 5 && q < |ts| && OperatorOf(level, ts[q].kind).Some?
    requires Level6(ts, q + 1) == Ok(Parsed(y, r)) && Ends(ts, level, r)
    ensures LevelLoop(ts, level, left, q) ==
      Ok(Parsed(Binary(OperatorOf(level, ts[q].kind).value, left, y, SpanOf(ts[q])), r))
  {
    OperandClimb(ts, level, q + 1, y, r);
    FoldTail(ts, level, left, q, y, r);
  }

  /** The same for any operand of the level. */
  lemma FoldTail(ts: seq<K.Token>, level: nat, left: Node, q: nat, y: Node, r: nat)
    requires 1 <= level <= 5 && q < |ts| && OperatorOf(level, ts[q].kind).Some?
    requires Operand(ts, level, q + 1) == Ok(Parsed(y, r)) && Ends(ts, level, r)
    ensures LevelLoop(ts, level, left, q) ==
      Ok(Parsed(Binary(OperatorOf(level, ts[q].kind).value, left, y, SpanOf(ts[q])), r))
  {
    LoopStep(ts, level, left, q, y, r);
    LoopStop(ts, level, Binary(OperatorOf(level, ts[q].kind).value, left, y, SpanOf(ts[q])), r);
  }

  /** One operator of a level between two prefix-level operands: one binary node of that level. */
  lemma Single(ts: seq<K.Token>, level: nat, pos: nat, x: Node, q: nat, y: Node, r: nat)
    requires 1 <= level <= 5 && pos <= |ts|
    requires Level6(ts, pos) == Ok(Parsed(x, q))
    requires q < |ts| && OperatorOf(level, ts[q].kind).Some?
    requires Level6(ts, q + 1) == Ok(Parsed(y, r)) && Ends(ts, level, r)
    ensures Level(ts, level, pos) ==
      Ok(Parsed(Binary(OperatorOf(level, ts[q].kind).value, x, y, SpanOf(ts[q])), r))
  {
    LevelOpens(ts, level, pos, x, q);
    FoldOperand(ts, level, x, q, y, r);
  }

  /**
   * Every binary level folds to the left: `a op1 b op2 c` with both
   * operators of the same level and `a`, `b`, `c` operands of that level
   * (prefix-level operands or tighter expressions) is `(a op1 b) op2 c`.
   */
  lemma LeftAssociative(ts: seq<K.Token>, level: nat, pos: nat, a: Node, p: nat, b: Node, q: nat, c: Node, r: nat)
    requires 1 <= level <= 5 && pos <= |ts|
    requires Operand(ts, level, pos) == Ok(Parsed(a, p)) && p < |ts| && OperatorOf(level, ts[p].kind).Some?
    requires Operand(ts, level, p + 1) == Ok(Parsed(b, q)) && q < |ts| && OperatorOf(level, ts[q].kind).Some?
    requires Operand(ts, level, q + 1) == Ok(Parsed(c, r)) && Ends(ts, level, r)
    ensures var inner := Binary(OperatorOf(level, ts[p].kind).value, a, b, SpanOf(ts[p]));
      Level(ts, level, pos) == Ok(Parsed(Binary(OperatorOf(level, ts[q].kind).value, inner, c, SpanOf(ts[q])), r))
  {
    LevelStart(ts, level, pos, a, p);
    LoopStep(ts, level, a, p, b, q);
    FoldTail(ts, level, Binary(OperatorOf(level, ts[p].kind).value, a, b, SpanOf(ts[p])), q, c, r);
  }

  /** A prefix-level operand followed by an operator of the level starts the level's loop there. */
  lemma LevelOpens(ts: seq<K.Token>, level: nat, pos: nat, a: Node, p: nat)
    requires 1 <= level <= 5 && pos <= |ts|
    requires Level6(ts, pos) == Ok(Parsed(a, p)) && p < |ts| && OperatorOf(level, ts[p].kind).Some?
    ensures Level(ts, level, pos) == LevelLoop(ts, level, a, p)
  {
    OperandBefore(ts, level, pos, a, p);
    LevelStart(ts, level, pos, a, p);
  }

  /** A prefix-level operand followed by an operator of the level is an operand of the level. */
  lemma OperandBefore(ts: seq<K.Token>, level: nat, pos: nat, a: Node, p: nat)
    requires 1 <= level <= 5 && pos <= |ts|
    requires Level6(ts, pos) == Ok(Parsed(a, p)) && p < |ts| && OperatorOf(level, ts[p].kind).Some?
    ensures Operand(ts, level, pos) == Ok(Parsed(a, p))
  {
    OtherLevels(ts, level, p);
    OperandClimb(ts, level, pos, a, p);
  }

  /** An operator of a level ends the loops of every tighter level. */
  lemma OtherLevels(ts: seq<K.Token>, level: nat, q: nat)
    requires 1 <= level <= 5 && q < |ts| && OperatorOf(level, ts[q].kind).Some?
    ensures BinaryLevel(ts[q].kind) == level
    ensures Ends(ts, level + 1, q)
  {
    LevelOfOperator(level, ts[q].kind);
  }

  /** `b hi c`, with `b` and `c` operands of the tighter level `hi`, as the operand of a looser level `lo`. */
  lemma TighterRun(ts: seq<K.Token>, lo: nat, hi: nat, p: nat, b: Node, q: nat, c: Node, r: nat)
    requires 1 <= lo < hi <= 5 && p <= |ts|
    requires Operand(ts, hi, p) == Ok(Parsed(b, q)) && q < |ts| && OperatorOf(hi, ts[q].kind).Some?
    requires Operand(ts, hi, q + 1) == Ok(Parsed(c, r)) && Ends(ts, lo + 1, r)
    ensures Operand(ts, lo, p) == Ok(Parsed(Binary(OperatorOf(hi, ts[q].kind).value, b, c, SpanOf(ts[q])), r))
  {
    var tight := Binary(OperatorOf(hi, ts[q].kind).value, b, c, SpanOf(ts[q]));
    EndsLater(ts, lo + 1, hi, r);
    LevelStart(ts, hi, p, b, q);
    FoldTail(ts, hi, b, q, c, r);
    Lift(ts, lo + 1, hi, p, tight, r);
    OperandIsNext(ts, lo, p);
  }

  /** Below the tightest binary level, an operand is the next level's parse. */
  lemma OperandIsNext(ts: seq<K.Token>, lo: nat, p: nat)
    requires 1 <= lo < 5 && p <= |ts|
    ensures Operand(ts, lo, p) == Level(ts, lo + 1, p)
  {
  }

  /** The operands of the tightest binary level are prefix-level parses. */
  lemma OperandOfTightest(ts: seq<K.Token>, p: nat)
    requires p <= |ts|
    ensures Operand(ts, 5, p) == Level6(ts, p)
  {
  }

  /** A position that ends a loop from one level ends the loops of the tighter levels too. */
  lemma EndsLater(ts: seq<K.Token>, lo: nat, hi: nat, q: nat)
    requires lo <= hi && Ends(ts, lo, q)
    ensures Ends(ts, hi, q)
  {
  }

  /**
   * `a lo b hi c`, with `hi` the tighter level, groups as `a lo (b hi c)`,
   * for any operand `a` of `lo` and any operands `b`, `c` of `hi`.
   */
  lemma TighterGroupsRight(ts: seq<K.Token>, lo: nat, hi: nat, pos: nat, a: Node, p: nat, b: Node, q: nat, c: Node, r: nat)
    requires 1 <= lo < hi <= 5 && pos <= |ts|
    requires Operand(ts, lo, pos) == Ok(Parsed(a, p)) && p < |ts| && OperatorOf(lo, ts[p].kind).Some?
    requires Operand(ts, hi, p + 1) == Ok(Parsed(b, q)) && q < |ts| && OperatorOf(hi, ts[q].kind).Some?
    requires Operand(ts, hi, q + 1) == Ok(Parsed(c, r)) && Ends(ts, lo, r)
    ensures var tight := Binary(OperatorOf(hi, ts[q].kind).value, b, c, SpanOf(ts[q]));
      Level(ts, lo, pos) == Ok(Parsed(Binary(OperatorOf(lo, ts[p].kind).value, a, tight, SpanOf(ts[p])), r))
  {
    LevelStart(ts, lo, pos, a, p);
    TighterRun(ts, lo, hi, p + 1, b, q, c, r);
    FoldTail(ts, lo, a, p, Binary(OperatorOf(hi, ts[q].kind).value, b, c, SpanOf(ts[q])), r);
  }

  /**
   * `a hi b lo c`, with `hi` the tighter level, groups as `(a hi b) lo c`,
   * for any operands `a`, `b` of `hi` and any operand `c` of `lo`.
   */
  lemma TighterGroupsLeft(ts: seq<K.Token>, lo: nat, hi: nat, pos: nat, a: Node, p: nat, b: Node, q: nat, c: Node, r: nat)
    requires 1 <= lo < hi <= 5 && pos <= |ts|
    requires Operand(ts, hi, pos) == Ok(Parsed(a, p)) && p < |ts| && OperatorOf(hi, ts[p].kind).Some?
    requires Operand(ts, hi, p + 1) == Ok(Parsed(b, q)) && q < |ts| && OperatorOf(lo, ts[q].kind).Some?
    requires Operand(ts, lo, q + 1) == Ok(Parsed(c, r)) && Ends(ts, lo, r)
    ensures var tight := Binary(OperatorOf(hi, ts[p].kind).value, a, b, SpanOf(ts[p]));
      Level(ts, lo, pos) == Ok(Parsed(Binary(OperatorOf(lo, ts[q].kind).value, tight, c, SpanOf(ts[q])), r))
  {
    var tight := Binary(OperatorOf(hi, ts[p].kind).value, a, b, SpanOf(ts[p]));
    OtherLevels(ts, lo, q);
    TighterRun(ts, lo, hi, pos, a, p, b, q);
    LevelStart(ts, lo, pos, tight, q);
    FoldTail(ts, lo, tight, q, c, r);
  }

  /** The prefix operators `!`, `-` and `~`. */
  predicate IsPrefix(k: K.Kind) {
    k == K.Exclamation || k == K.Minus || k == K.Tilde
  }

  /** The node class of a prefix operator token. */
  function PrefixOf(k: K.Kind): UnaryClass {
    if k == K.Exclamation then NotOperation else if k == K.Minus then NegationOperation else BitwiseNot
  }

  /** A prefix operator applies to the prefix-level operand after it. */
  lemma PrefixShape(ts: seq<K.Token>, pos: nat, x: Node, q: nat)
    requires pos < |ts| && IsPrefix(ts[pos].kind)
    requires Level6(ts, pos + 1) == Ok(Parsed(x, q))
    ensures Level6(ts, pos) == Ok(Parsed(Unary(PrefixOf(ts[pos].kind), x, SpanOf(ts[pos])), q))
  {
  }

  /**
   * A prefix operator binds tighter than every binary operator: `-a op b`
   * is `(-a) op b` at every level, so `-1 + 2` adds 2 to minus one.
   */
  lemma PrefixBindsTighter(ts: seq<K.Token>, level: nat, pos: nat, a: Node, p: nat, b: Node, q: nat)
    requires 1 <= level <= 5 && pos < |ts| && IsPrefix(ts[pos].kind)
    requires Level6(ts, pos + 1) == Ok(Parsed(a, p)) && p < |ts| && OperatorOf(level, ts[p].kind).Some?
    requires Level6(ts, p + 1) == Ok(Parsed(b, q)) && Ends(ts, level, q)
    ensures var prefixed := Unary(PrefixOf(ts[pos].kind), a, SpanOf(ts[pos]));
      Level(ts, level, pos) == Ok(Parsed(Binary(OperatorOf(level, ts[p].kind).value, prefixed, b, SpanOf(ts[p])), q))
  {
    PrefixShape(ts, pos, a, p);
    Single(ts, level, pos, Unary(PrefixOf(ts[pos].kind), a, SpanOf(ts[pos])), p, b, q);
  }

  // ------------------------------------------------------------ blocks

  /**
   * A block ends at the end of the list or right before an `end` or an
   * `else`, which it leaves for the enclosing production; the statements
   * gathered before it come first, in order. For the top-level block this
   * means a parse reads the whole list or stops at a stray `end` or `else`.
   */
  lemma {:induction false} BlockStops(ts: seq<K.Token>, pos: nat, acc: seq<Node>)
    requires pos <= |ts| && BlockFrom(ts, pos, acc).Ok?
    ensures var p := BlockFrom(ts, pos, acc).value;
      p.next == |ts| || Has(ts, p.next, K.End) || Has(ts, p.next, K.Else)
    ensures var statements := BlockFrom(ts, pos, acc).value.node.statements;
      |acc| <= |statements| && statements[..|acc|] == acc
    decreases |ts| - pos
  {
    if pos < |ts| {
      var p := SkipLinebreaks(ts, pos);
      if !(Has(ts, p, K.End) || Has(ts, p, K.Else)) {
        BlockStep(ts, pos, acc);
        var s := Statement(ts, p).value;
        BlockStops(ts, s.next, acc + [s.node]);
        var statements := BlockFrom(ts, pos, acc).value.node.statements;
        assert statements[..|acc| + 1][..|acc|] == statements[..|acc|];
      }
    }
  }

  /** A block that goes on parses one statement and continues after it. */
  lemma BlockStep(ts: seq<K.Token>, pos: nat, acc: seq<Node>)
    requires pos < |ts| && BlockFrom(ts, pos, acc).Ok?
    requires var p := SkipLinebreaks(ts, pos); !(Has(ts, p, K.End) || Has(ts, p, K.Else))
    ensures var p := SkipLinebreaks(ts, pos);
      Statement(ts, p).Ok? &&
      BlockFrom(ts, pos, acc) == BlockFrom(ts, Statement(ts, p).value.next, acc + [Statement(ts, p).value.node])
  {
  }

  /** A block reaching a statement keyword parses that statement with the production for it. */
  lemma StatementKinds(ts: seq<K.Token>, pos: nat)
    requires pos < |ts|
    ensures ts[pos].kind == K.If ==> Statement(ts, pos) == ParseConditional(ts, pos)
    ensures ts[pos].kind == K.For ==> Statement(ts, pos) == ParseForLoop(ts, pos)
    ensures ts[pos].kind == K.Identifier && HasNext(ts, pos, K.Assignment) ==>
      Statement(ts, pos) == ParseAssignment(ts, pos)
    ensures ts[pos].kind !in {K.If, K.For} && !(ts[pos].kind == K.Identifier && HasNext(ts, pos, K.Assignment)) ==>
      Statement(ts, pos) == Expression(ts, pos)
  {
  }

  // ------------------------------------------------------------ conditionals and loops

  /** The steps of a conditional, from the cursor after its condition. */
  lemma ConditionalSteps(ts: seq<K.Token>, pos: nat)
    requires pos <= |ts| && Has(ts, pos, K.If) && Expression(ts, pos + 1).Ok?
    ensures var c := Expression(ts, pos + 1).value;
      ParseConditional(ts, pos) == IfBlock(ts, c.node, c.next)
  {
  }

  /**
   * A parsed conditional starts with `if`, has a line break right after its
   * condition, and ends with the `end` token just consumed.
   */
  lemma ConditionalShape(ts: seq<K.Token>, pos: nat)
    requires pos <= |ts| && ParseConditional(ts, pos).Ok?
    ensures Has(ts, pos, K.If)
    ensures Expression(ts, pos + 1).Ok? && Has(ts, Expression(ts, pos + 1).value.next, K.Linebreak)
    ensures var p := ParseConditional(ts, pos).value;
      p.node.Conditional? && p.node.condition == Expression(ts, pos + 1).value.node &&
      pos < p.next && Has(ts, p.next - 1, K.End)
  {
    ConditionalSteps(ts, pos);
    var c := Expression(ts, pos + 1).value;
    var ib := BlockFrom(ts, c.next + 1, []).value;
    assert IfBlock(ts, c.node, c.next) == ConditionalElse(ts, c.node, ib.node, ib.next);
    ElseSteps(ts, c.node, ib.node, ib.next);
  }

  /** After the if-block: the `end` that closes the conditional is the last token it consumes. */
  lemma ElseSteps(ts: seq<K.Token>, c: Node, ib: Node, pos: nat)
    requires pos <= |ts| && ConditionalElse(ts, c, ib, pos).Ok?
    ensures var p := ConditionalElse(ts, c, ib, pos).value;
      p.node.Conditional? && p.node.condition == c && p.node.ifBlock == ib &&
      pos < p.next && Has(ts, p.next - 1, K.End)
    ensures ConditionalElse(ts, c, ib, pos).value.node.elseBlock.Some? <==>
      Has(ts, pos, K.Else)
    ensures Has(ts, pos, K.Else) ==> Has(ts, pos + 1, K.Linebreak)
  {
    if Has(ts, pos, K.Else) {
      var eb := BlockFrom(ts, pos + 2, []).value;
      assert ElseBlock(ts, c, ib, pos + 1) == CloseConditional(ts, c, ib, Some(eb.node), eb.next);
    }
  }

  /**
   * A parsed for-loop has the header `for x in [n, n]..[n, n]`, and `do` or a
   * line break follows it.
   */
  lemma ForHeaderShape(ts: seq<K.Token>, pos: nat)
    requires pos <= |ts| && ParseForLoop(ts, pos).Ok?
    ensures forall i :: 0 <= i < |ForHeader| ==> Has(ts, pos + i, ForHeader[i])
    ensures Has(ts, pos + |ForHeader|, K.Do) || Has(ts, pos + |ForHeader|, K.Linebreak)
  {
    ExpectAllMatches(ts, pos, ForHeader);
  }

  /** A successful run of `expect` calls returns exactly the tokens it passed over. */
  lemma TakenTokens(ts: seq<K.Token>, pos: nat, kinds: seq<K.Kind>)
    requires pos <= |ts| && ExpectAll(ts, pos, kinds).Ok?
    ensures pos + |kinds| <= |ts|
    ensures ExpectAll(ts, pos, kinds).value == Taken(ts[pos..pos + |kinds|], pos + |kinds|)
  {
    ExpectAllTokens(ts, pos, kinds);
  }

  /**
   * The rest of a for-loop: `do` or a line break follows the header, the
   * node keeps the header's identifier and its four bound tokens as given,
   * and the `end` token is the last one consumed.
   */
  lemma BodyShape(ts: seq<K.Token>, header: seq<K.Token>, pos: nat)
    requires pos <= |ts| && |header| == |ForHeader| && ForLoopBody(ts, header, pos).Ok?
    ensures Has(ts, pos, K.Do) || Has(ts, pos, K.Linebreak)
    ensures var p := ForLoopBody(ts, header, pos).value;
      p.node.ForLoop? &&
      p.node.loopVariable == header[1] && p.node.startRow == header[4] && p.node.startCol == header[6] &&
      p.node.endRow == header[10] && p.node.endCol == header[12] &&
      Has(ts, p.next - 1, K.End)
  {
    BodyOpens(ts, header, pos);
    BodyParts(ts, header, pos);
  }

  lemma BodyOpens(ts: seq<K.Token>, header: seq<K.Token>, pos: nat)
    requires pos <= |ts| && |header| == |ForHeader| && ForLoopBody(ts, header, pos).Ok?
    ensures Has(ts, pos, K.Do) || Has(ts, pos, K.Linebreak)
  {
  }

  lemma BodyParts(ts: seq<K.Token>, header: seq<K.Token>, pos: nat)
    requires pos <= |ts| && |header| == |ForHeader| && ForLoopBody(ts, header, pos).Ok?
    requires Has(ts, pos, K.Do) || Has(ts, pos, K.Linebreak)
    ensures var b := BlockFrom(ts, pos + 1, []);
      b.Ok? && Has(ts, b.value.next, K.End) &&
      ForLoopBody(ts, header, pos) ==
        Ok(Parsed(ForLoop(header[1], header[4], header[6], header[10], header[12], b.value.node), b.value.next + 1))
  {
  }

  /** A parsed for-loop passed its header, and the rest is parsed from after it. */
  lemma ForLoopSteps(ts: seq<K.Token>, pos: nat)
    requires pos <= |ts| && ParseForLoop(ts, pos).Ok?
    ensures ExpectAll(ts, pos, ForHeader).Ok?
    ensures var h := ExpectAll(ts, pos, ForHeader).value;
      ParseForLoop(ts, pos) == ForLoopBody(ts, h.tokens, h.next)
  {
  }
}
