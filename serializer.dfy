/**
 * The serializer: a second visitor that renders an expression tree back to
 * formula text, every binary operation in parentheses. It reads neither
 * the grid nor the variables.
 */
module Serialization {
  import opened Wrappers
  import opened Ast
  import opened Decimal

  /** A node the serializer has no `visit_*` method for: Ruby raises NoMethodError. */
  datatype SerializeError = NoVisitor(name: string)

  /** The `visit_*` names `traverse` builds for expression nodes, which a serializer must answer to. */
  const ExpressionVisitors: set<string> := {
    "visit_integerprimitive", "visit_floatprimitive", "visit_booleanprimitive",
    "visit_stringprimitive", "visit_celladdressprimitive",
    "visit_addition", "visit_subtraction", "visit_multiplication", "visit_division",
    "visit_modulo", "visit_exponentiation",
    "visit_bitwiseand", "visit_bitwiseor", "visit_bitwisexor",
    "visit_bitwiseleftshift", "visit_bitwiserightshift",
    "visit_and", "visit_or", "visit_equals", "visit_notequals",
    "visit_lessthan", "visit_lessthanorequal", "visit_morethan", "visit_morethanorequal",
    "visit_rvalue", "visit_lvalue",
    "visit_negation", "visit_bitwisenot", "visit_floattoint", "visit_inttofloat", "visit_not",
    "visit_mean", "visit_sum", "visit_min", "visit_max"
  }

  /** The `visit_*` methods the serializer class defines, spelled as it spells them. */
  const SerializerMethods: set<string> := {
    "visit_integerprimitive", "visit_floatprimitive", "visit_booleanprimitive",
    "visit_stringprimitive", "visit_celladdressprimitive",
    "visit_addition", "visit_subtraction", "visit_multiplication", "visit_division",
    "visit_modulo", "visit_exponentiation",
    "visit_bitwise_and", "visit_bitwise_or", "visit_bitwise_xor",
    "visit_bitwise_leftshift", "visit_bitwise_rightshift",
    "visit_and", "visit_or", "visit_equals", "visit_notequals",
    "visit_lessthan", "visit_lessthanequals", "visit_morethan", "visit_morethanequals",
    "visit_rvalue", "visit_lvalue",
    "visit_negation", "visit_bitwise_not", "visit_floattoint", "visit_inttofloat", "visit_not",
    "visit_mean", "visit_sum", "visit_min", "visit_max"
  }

  /** The operator text between the operands of a parenthesised binary node. */
  function Infix(op: BinaryClass): Option<string> {
    match op
    case AdditionOperation => Some("+")
    case SubtractionOperation => Some("-")
    case MultiplicationOperation => Some("*")
    case DivisionOperation => Some("/")
    case ModuloOperation => Some("%")
    case ExponentiationOperation => Some("**")
    case BitwiseAnd => Some("&")
    case BitwiseOr => Some("|")
    case BitwiseXor => Some("^")
    case BitwiseLeftShift => Some("<<")
    case BitwiseRightShift => Some(">>")
    case AndOperation => Some("&&")
    case OrOperation => Some("||")
    case EqualsOperation => Some("==")
    case NotEqualsOperation => Some("!=")
    case LessThanOperation => Some("<")
    case LessThanOrEqualOperation => Some("<=")
    case MoreThanOperation => Some(">")
    case MoreThanOrEqualOperation => Some(">=")
    case _ => None
  }

  /** The call name of a statistic. */
  function StatisticName(op: BinaryClass): string {
    match op
    case MeanOperation => "mean"
    case SumOperation => "sum"
    case MinOperation => "min"
    case _ => "max"
  }

  /** What a binary node writes before its left operand. */
  function Head(op: BinaryClass): string {
    if Infix(op).Some? then "("
    else if op.RValue? then "#["
    else if op.LValue? then "["
    else StatisticName(op) + "("
  }

  /** What a binary node writes between its operands. */
  function Middle(op: BinaryClass): string {
    match Infix(op)
    case Some(sym) => " " + sym + " "
    case None => ", "
  }

  /** What a binary node writes after its right operand. */
  function Tail(op: BinaryClass): string {
    if op.RValue? || op.LValue? then "]" else ")"
  }

  /** What a unary node writes before its operand. */
  function Prefix(op: UnaryClass): string {
    match op
    case NegationOperation => "-"
    case BitwiseNot => "(~"
    case FloatToInt => "int" + "("
    case IntToFloat => "float" + "("
    case NotOperation => "!("
  }

  /** What a unary node writes after its operand. */
  function Suffix(op: UnaryClass): string {
    if op.NegationOperation? then "" else ")"
  }

  /**
   * Rendering by a serializer that defines the `visit_*` methods in
   * `methods`: the method `traverse` names must exist, the left operand is
   * rendered before the right. `Float#to_s` is the parameter `floatText`.
   */
  function Render(n: Node, methods: set<string>, floatText: real -> string): (r: Result<string, SerializeError>)
    ensures r.Ok? ==> VisitName(n) in methods && Renderable(n)
  {
    if VisitName(n) !in methods then Err(NoVisitor(VisitName(n)))
    else
      match n
      case IntegerPrimitive(v, _) => Ok(IntToString(v))
      case FloatPrimitive(v, _) => Ok(floatText(v))
      case BooleanPrimitive(v, _) => Ok(if v then "true" else "false")
      case StringPrimitive(v, _) => Ok("\"" + v + "\"")
      case CellAddressPrimitive(row, col) => Ok("[" + IntToString(row) + ", " + IntToString(col) + "]")
      case Binary(op, l, r, _) =>
        (match Render(l, methods, floatText)
         case Err(e) => Err(e)
         case Ok(ls) =>
           match Render(r, methods, floatText)
           case Err(e) => Err(e)
           case Ok(rs) => Ok(Head(op) + ls + Middle(op) + rs + Tail(op)))
      case Unary(op, x, _) =>
        (match Render(x, methods, floatText)
         case Err(e) => Err(e)
         case Ok(xs) => Ok(Prefix(op) + xs + Suffix(op)))
      case _ => Err(NoVisitor(VisitName(n)))
  }

  /** The serializer as its method names are spelled. */
  function SerializeAsWritten(n: Node, floatText: real -> string): (r: Result<string, SerializeError>)
    ensures r.Ok? ==> VisitName(n) in SerializerMethods
  {
    Render(n, SerializerMethods, floatText)
  }

  /** The serializer with every method named as `traverse` calls it. */
  function Serialize(n: Node, floatText: real -> string): (r: Result<string, SerializeError>)
    ensures r.Ok? ==> VisitName(n) in ExpressionVisitors
  {
    Render(n, ExpressionVisitors, floatText)
  }

  /** The node classes the serializer has a rendering for. */
  predicate Renderable(n: Node) {
    n.Binary? || n.Unary? || n.IntegerPrimitive? || n.FloatPrimitive? || n.BooleanPrimitive? ||
    n.StringPrimitive? || n.CellAddressPrimitive?
  }

  /** Trees of expression nodes only: no block, assignment, reference, conditional or for-loop. */
  predicate IsExpression(n: Node) {
    Renderable(n) &&
    match n
    case Binary(_, l, r, _) => IsExpression(l) && IsExpression(r)
    case Unary(_, x, _) => IsExpression(x)
    case _ => true
  }

  /** The nodes whose method the serializer misnames: the bitwise operators, `<=` and `>=`. */
  predicate Misnamed(n: Node) {
    (n.Binary? && n.op in {BitwiseAnd, BitwiseOr, BitwiseXor, BitwiseLeftShift, BitwiseRightShift,
                           LessThanOrEqualOperation, MoreThanOrEqualOperation}) ||
    (n.Unary? && n.uop.BitwiseNot?)
  }

  /** Trees with no misnamed node anywhere inside. */
  predicate NoMisnamed(n: Node) {
    !Misnamed(n) &&
    match n
    case Binary(_, l, r, _) => NoMisnamed(l) && NoMisnamed(r)
    case Unary(_, x, _) => NoMisnamed(x)
    case _ => true
  }

  /** `traverse` finds a method in the corrected serializer exactly for the expression node classes. */
  lemma ExpressionVisitorNames(n: Node)
    ensures VisitName(n) in ExpressionVisitors <==> Renderable(n)
  {
    match n
    case Binary(op, _, _, _) =>
    case Unary(op, _, _) =>
    case _ =>
  }

  /** In the serializer as written, it finds one exactly for the expression node classes it spells right. */
  lemma SerializerMethodNames(n: Node)
    ensures VisitName(n) in SerializerMethods <==> Renderable(n) && !Misnamed(n)
  {
    match n
    case Binary(_, _, _, _) => BinaryMethodNames(n);
    case Unary(_, _, _) => UnaryMethodNames(n);
    case IntegerPrimitive(_, _) => assert VisitName(n) in SerializerMethods;
    case FloatPrimitive(_, _) => assert VisitName(n) in SerializerMethods;
    case BooleanPrimitive(_, _) => assert VisitName(n) in SerializerMethods;
    case StringPrimitive(_, _) => assert VisitName(n) in SerializerMethods;
    case CellAddressPrimitive(_, _) => assert VisitName(n) in SerializerMethods;
    case _ => StatementsHaveNoMethod(n);
  }

  /** Neither serializer has a method for a statement node. */
  lemma StatementsHaveNoMethod(n: Node)
    requires !Renderable(n)
    ensures VisitName(n) !in SerializerMethods && VisitName(n) !in ExpressionVisitors
  {
    match n
    case Block(_) =>
    case Assignment(_, _) =>
    case Reference(_, _) =>
    case Conditional(_, _, _) =>
    case ForLoop(_, _, _, _, _, _) =>
  }

  lemma BinaryMethodNames(n: Node)
    requires n.Binary?
    ensures VisitName(n) in SerializerMethods <==>
      n.op !in {BitwiseAnd, BitwiseOr, BitwiseXor, BitwiseLeftShift, BitwiseRightShift,
              LessThanOrEqualOperation, MoreThanOrEqualOperation}
  {
    match n.op
    case AdditionOperation =>
    case SubtractionOperation =>
    case MultiplicationOperation =>
    case DivisionOperation =>
    case ModuloOperation =>
    case ExponentiationOperation =>
    case AndOperation =>
    case OrOperation =>
    case EqualsOperation =>
    case NotEqualsOperation =>
    case LessThanOperation =>
    case LessThanOrEqualOperation =>
    case MoreThanOperation =>
    case MoreThanOrEqualOperation =>
    case BitwiseAnd =>
    case BitwiseOr =>
    case BitwiseXor =>
    case BitwiseLeftShift =>
    case BitwiseRightShift =>
    case RValue =>
    case LValue =>
    case MaxOperation =>
    case MinOperation =>
    case MeanOperation =>
    case SumOperation =>
  }

  lemma UnaryMethodNames(n: Node)
    requires n.Unary?
    ensures VisitName(n) in SerializerMethods <==> !n.uop.BitwiseNot?
  {
    match n.uop
    case NegationOperation =>
    case NotOperation =>
    case FloatToInt =>
    case IntToFloat =>
    case BitwiseNot =>
  }

  /** The serializer renders exactly the expression trees; a statement anywhere inside fails. */
  lemma {:induction false} SerializeOkIffExpression(n: Node, floatText: real -> string)
    ensures Serialize(n, floatText).Ok? <==> IsExpression(n)
  {
    ExpressionVisitorNames(n);
    match n
    case Binary(_, l, r, _) =>
      SerializeOkIffExpression(l, floatText);
      SerializeOkIffExpression(r, floatText);
    case Unary(_, x, _) =>
      SerializeOkIffExpression(x, floatText);
    case _ =>
  }

  /**
   * The serializer as written renders a tree exactly when the corrected one
   * does and no misnamed node occurs in it, and then renders it alike.
   */
  lemma {:induction false} AsWrittenFailsOnlyOnMisnamed(n: Node, floatText: real -> string)
    ensures SerializeAsWritten(n, floatText).Ok? <==> IsExpression(n) && NoMisnamed(n)
    ensures SerializeAsWritten(n, floatText).Ok? ==> SerializeAsWritten(n, floatText) == Serialize(n, floatText)
  {
    ExpressionVisitorNames(n);
    SerializerMethodNames(n);
    match n
    case Binary(_, l, r, _) =>
      AsWrittenFailsOnlyOnMisnamed(l, floatText);
      AsWrittenFailsOnlyOnMisnamed(r, floatText);
    case Unary(_, x, _) =>
      AsWrittenFailsOnlyOnMisnamed(x, floatText);
    case _ =>
  }

  /** `(1 << 3) + 1`: the serializer as written raises on the shift; the corrected one renders it. */
  lemma ShiftNotRenderedAsWritten(floatText: real -> string)
    ensures var shift := Binary(BitwiseLeftShift, IntegerPrimitive(1, NoSpan), IntegerPrimitive(3, NoSpan), NoSpan);
      var n := Binary(AdditionOperation, shift, IntegerPrimitive(1, NoSpan), NoSpan);
      SerializeAsWritten(n, floatText) == Err(NoVisitor("visit_bitwiseleftshift")) &&
      Serialize(n, floatText) == Ok("((1 << 3) + 1)")
  {
    var one, three := IntegerPrimitive(1, NoSpan), IntegerPrimitive(3, NoSpan);
    var shift := Binary(BitwiseLeftShift, one, three, NoSpan);
    var n := Binary(AdditionOperation, shift, one, NoSpan);
    SerializerMethodNames(n);
    SerializerMethodNames(shift);
    ExpressionVisitorNames(n);
    ExpressionVisitorNames(shift);
    assert IntToString(1) == "1" && IntToString(3) == "3";
    RendersAs(one, floatText, "1");
    RendersAs(three, floatText, "3");
    BinaryRendersAs(shift, floatText, "1", "3", "(1 << 3)");
    BinaryRendersAs(n, floatText, "(1 << 3)", "1", "((1 << 3) + 1)");
  }

  /** `2 + (1 + 2)` renders with every addition in parentheses. */
  lemma NestedAdditionExample(floatText: real -> string)
    ensures var one, two := IntegerPrimitive(1, NoSpan), IntegerPrimitive(2, NoSpan);
      Serialize(Binary(AdditionOperation, two, Binary(AdditionOperation, one, two, NoSpan), NoSpan), floatText) ==
        Ok("(2 + (1 + 2))")
  {
    var one, two := IntegerPrimitive(1, NoSpan), IntegerPrimitive(2, NoSpan);
    RendersAs(one, floatText, "1");
    RendersAs(two, floatText, "2");
    var inner := Binary(AdditionOperation, one, two, NoSpan);
    BinaryRendersAs(inner, floatText, "1", "2", "(1 + 2)");
    BinaryRendersAs(Binary(AdditionOperation, two, inner, NoSpan), floatText, "2", "(1 + 2)", "(2 + (1 + 2))");
  }

  /** The tree of `(7 * 4 + 3) % 12`, built node by node, renders with its grouping shown. */
  lemma ModuloExample(floatText: real -> string)
    ensures var product := Binary(MultiplicationOperation, IntegerPrimitive(7, NoSpan), IntegerPrimitive(4, NoSpan), NoSpan);
      var sum := Binary(AdditionOperation, product, IntegerPrimitive(3, NoSpan), NoSpan);
      Serialize(Binary(ModuloOperation, sum, IntegerPrimitive(12, NoSpan), NoSpan), floatText) ==
        Ok("(((7 * 4) + 3) % 12)")
  {
    RendersAs(IntegerPrimitive(3, NoSpan), floatText, "3");
    RendersAs(IntegerPrimitive(4, NoSpan), floatText, "4");
    RendersAs(IntegerPrimitive(7, NoSpan), floatText, "7");
    RendersAs(IntegerPrimitive(12, NoSpan), floatText, "12");
    var product := Binary(MultiplicationOperation, IntegerPrimitive(7, NoSpan), IntegerPrimitive(4, NoSpan), NoSpan);
    ModuloText();
    JoinedText(MultiplicationOperation, "7", "4", "(7 * 4)", "(", " * ", ")");
    BinaryRendersAs(product, floatText, "7", "4", "(7 * 4)");
    var sum := Binary(AdditionOperation, product, IntegerPrimitive(3, NoSpan), NoSpan);
    JoinedText(AdditionOperation, "(7 * 4)", "3", "((7 * 4) + 3)", "(", " + ", ")");
    BinaryRendersAs(sum, floatText, "(7 * 4)", "3", "((7 * 4) + 3)");
    JoinedText(ModuloOperation, "((7 * 4) + 3)", "12", "(((7 * 4) + 3) % 12)", "(", " % ", ")");
    BinaryRendersAs(Binary(ModuloOperation, sum, IntegerPrimitive(12, NoSpan), NoSpan), floatText,
      "((7 * 4) + 3)", "12", "(((7 * 4) + 3) % 12)");
  }

  /** Cell reads render as `#[row, column]`, and negation as a bare minus sign. */
  lemma CellReadExample(floatText: real -> string)
    ensures var c1 := Binary(RValue, IntegerPrimitive(1, NoSpan), IntegerPrimitive(1, NoSpan), NoSpan);
      var c2 := Binary(RValue, IntegerPrimitive(2, NoSpan), IntegerPrimitive(1, NoSpan), NoSpan);
      Serialize(Binary(MultiplicationOperation, c1, Unary(NegationOperation, c2, NoSpan), NoSpan), floatText) ==
        Ok("(#[1, 1] * -#[2, 1])")
  {
    var one, two := IntegerPrimitive(1, NoSpan), IntegerPrimitive(2, NoSpan);
    RendersAs(one, floatText, "1");
    RendersAs(two, floatText, "2");
    var c1 := Binary(RValue, one, one, NoSpan);
    var c2 := Binary(RValue, two, one, NoSpan);
    BinaryRendersAs(c1, floatText, "1", "1", "#[1, 1]");
    BinaryRendersAs(c2, floatText, "2", "1", "#[2, 1]");
    var negated := Unary(NegationOperation, c2, NoSpan);
    UnaryRendersAs(negated, floatText, "#[2, 1]", "-#[2, 1]");
    CellReadText();
    JoinedText(MultiplicationOperation, "#[1, 1]", "-#[2, 1]", "(#[1, 1] * -#[2, 1])", "(", " * ", ")");
    BinaryRendersAs(Binary(MultiplicationOperation, c1, negated, NoSpan), floatText,
      "#[1, 1]", "-#[2, 1]", "(#[1, 1] * -#[2, 1])");
  }

  /** A statistic renders as a call on its two corner addresses. */
  lemma SumExample(floatText: real -> string)
    ensures Serialize(Binary(SumOperation, CellAddressPrimitive(1, 2), CellAddressPrimitive(5, 3), NoSpan), floatText) ==
      Ok("sum([1, 2], [5, 3])")
  {
    assert IntToString(1) == "1" && IntToString(2) == "2" && IntToString(3) == "3" && IntToString(5) == "5";
    var a, b := CellAddressPrimitive(1, 2), CellAddressPrimitive(5, 3);
    ExpressionVisitorNames(a);
    ExpressionVisitorNames(b);
    assert Serialize(a, floatText) == Ok("[" + "1" + ", " + "2" + "]");
    assert "[" + "1" + ", " + "2" + "]" == "[1, 2]";
    assert Serialize(b, floatText) == Ok("[" + "5" + ", " + "3" + "]");
    assert "[" + "5" + ", " + "3" + "]" == "[5, 3]";
    BinaryRendersAs(Binary(SumOperation, a, b, NoSpan), floatText, "[1, 2]", "[5, 3]", "sum([1, 2], [5, 3])");
  }

  /** An integer literal renders as its decimal numeral. */
  lemma RendersAs(n: Node, floatText: real -> string, text: string)
    requires n.IntegerPrimitive? && IntToString(n.intValue) == text
    ensures Serialize(n, floatText) == Ok(text)
  {
    ExpressionVisitorNames(n);
  }

  lemma UnaryRendersAs(n: Node, floatText: real -> string, xs: string, text: string)
    requires n.Unary? && Serialize(n.operand, floatText) == Ok(xs)
    requires text == Prefix(n.uop) + xs + Suffix(n.uop)
    ensures Serialize(n, floatText) == Ok(text)
  {
    ExpressionVisitorNames(n);
  }

  lemma ModuloText()
    ensures "(7 * 4)" == "(" + "7" + " * " + "4" + ")"
    ensures "((7 * 4) + 3)" == "(" + "(7 * 4)" + " + " + "3" + ")"
    ensures "(((7 * 4) + 3) % 12)" == "(" + "((7 * 4) + 3)" + " % " + "12" + ")"
  {
  }

  lemma CellReadText()
    ensures "(#[1, 1] * -#[2, 1])" == "(" + "#[1, 1]" + " * " + "-#[2, 1]" + ")"
  {
  }

  /** The rendering pieces of `op` around `ls` and `rs` spell `text`. */
  lemma JoinedText(op: BinaryClass, ls: string, rs: string, text: string, head: string, middle: string, tail: string)
    requires Head(op) == head && Middle(op) == middle && Tail(op) == tail
    requires text == head + ls + middle + rs + tail
    ensures text == Head(op) + ls + Middle(op) + rs + Tail(op)
  {
  }

  lemma BinaryRendersAs(n: Node, floatText: real -> string, ls: string, rs: string, text: string)
    requires n.Binary?
    requires Serialize(n.left, floatText) == Ok(ls) && Serialize(n.right, floatText) == Ok(rs)
    requires text == Head(n.op) + ls + Middle(n.op) + rs + Tail(n.op)
    ensures Serialize(n, floatText) == Ok(text)
  {
    ExpressionVisitorNames(n);
  }

  // ------------------------------------------------------------ parentheses

  /** How often `c` occurs in `s`. */
  function Count(s: string, c: char): nat {
    if |s| == 0 then 0 else Count(s[..|s| - 1], c) + (if s[|s| - 1] == c then 1 else 0)
  }

  lemma {:induction false} CountAppend(a: string, b: string, c: char)
    ensures Count(a + b, c) == Count(a, c) + Count(b, c)
    decreases |b|
  {
    if |b| > 0 {
      assert (a + b)[..|a + b| - 1] == a + b[..|b| - 1];
      CountAppend(a, b[..|b| - 1], c);
    } else {
      assert a + b == a;
    }
  }

  lemma {:induction false} Absent(s: string, c: char)
    requires forall i :: 0 <= i < |s| ==> s[i] != c
    ensures Count(s, c) == 0
    decreases |s|
  {
    if |s| > 0 {
      Absent(s[..|s| - 1], c);
    }
  }

  /** A name followed by an opening parenthesis holds one of them and no closing one. */
  lemma Opening(name: string)
    requires forall i :: 0 <= i < |name| ==> name[i] != '(' && name[i] != ')'
    ensures Count(name + "(", '(') == 1 && Count(name + "(", ')') == 0
  {
    var s := name + "(";
    assert s[..|s| - 1] == name && s[|s| - 1] == '(';
    Absent(name, '(');
    Absent(name, ')');
  }

  /** Numerals hold no parentheses. */
  lemma NumeralsHaveNoParentheses(n: int)
    ensures Count(IntToString(n), '(') == 0 && Count(IntToString(n), ')') == 0
  {
    var s := IntToString(n);
    assert forall i :: 0 <= i < |s| ==> s[i] == '-' || IsDigit(s[i]);
    Absent(s, '(');
    Absent(s, ')');
  }

  /** The pieces a binary node adds open as many parentheses as they close. */
  lemma BinaryPiecesBalance(op: BinaryClass)
    ensures Count(Head(op), '(') + Count(Middle(op), '(') + Count(Tail(op), '(') ==
            Count(Head(op), ')') + Count(Middle(op), ')') + Count(Tail(op), ')')
  {
    MiddlePlain(op);
    if Infix(op).None? && !op.RValue? && !op.LValue? {
      Opening(StatisticName(op));
    }
  }

  /** The separator between two operands holds no parentheses. */
  lemma MiddlePlain(op: BinaryClass)
    ensures Count(Middle(op), '(') == 0 && Count(Middle(op), ')') == 0
  {
    var m := Middle(op);
    assert forall i :: 0 <= i < |m| ==> m[i] != '(' && m[i] != ')' by {
      match Infix(op)
      case Some(sym) =>
        assert m == " " + sym + " ";
        match op {
          case AdditionOperation =>
          case SubtractionOperation =>
          case MultiplicationOperation =>
          case DivisionOperation =>
          case ModuloOperation =>
          case ExponentiationOperation =>
          case _ =>
        }
      case None =>
    }
    Absent(m, '(');
    Absent(m, ')');
  }

  /** The pieces a unary node adds open as many parentheses as they close. */
  lemma UnaryPiecesBalance(op: UnaryClass)
    ensures Count(Prefix(op), '(') + Count(Suffix(op), '(') == Count(Prefix(op), ')') + Count(Suffix(op), ')')
  {
    match op
    case FloatToInt => Opening("int");
    case IntToFloat => Opening("float");
    case _ =>
  }

  lemma Count5(a: string, b: string, d: string, e: string, f: string, c: char)
    ensures Count(a + b + d + e + f, c) == Count(a, c) + Count(b, c) + Count(d, c) + Count(e, c) + Count(f, c)
  {
    CountAppend(a, b, c);
    CountAppend(a + b, d, c);
    CountAppend(a + b + d, e, c);
    CountAppend(a + b + d + e, f, c);
  }

  lemma Count3(a: string, b: string, d: string, c: char)
    ensures Count(a + b + d, c) == Count(a, c) + Count(b, c) + Count(d, c)
  {
    CountAppend(a, b, c);
    CountAppend(a + b, d, c);
  }

  /** Trees whose literals cannot hold parentheses: no strings and no floats. */
  predicate PlainLiterals(n: Node) {
    match n
    case Binary(_, l, r, _) => PlainLiterals(l) && PlainLiterals(r)
    case Unary(_, x, _) => PlainLiterals(x)
    case StringPrimitive(_, _) => false
    case FloatPrimitive(_, _) => false
    case _ => true
  }

  /**
   * The rendering is balanced: every opening parenthesis the serializer
   * writes has its closing one.
   */
  lemma {:induction false} ParenthesesBalance(n: Node, floatText: real -> string)
    requires PlainLiterals(n) && Serialize(n, floatText).Ok?
    ensures Count(Serialize(n, floatText).value, '(') == Count(Serialize(n, floatText).value, ')')
  {
    ExpressionVisitorNames(n);
    match n
    case IntegerPrimitive(v, _) =>
      NumeralsHaveNoParentheses(v);
    case BooleanPrimitive(v, _) =>
      Absent(if v then "true" else "false", '(');
      Absent(if v then "true" else "false", ')');
    case CellAddressPrimitive(row, col) =>
      AddressBalance(row, col);
    case Binary(op, l, r, _) =>
      ParenthesesBalance(l, floatText);
      ParenthesesBalance(r, floatText);
      BinaryBalance(n, floatText);
    case Unary(op, x, _) =>
      ParenthesesBalance(x, floatText);
      UnaryBalance(n, floatText);
  }

  lemma AddressBalance(row: int, col: int)
    ensures var s := "[" + IntToString(row) + ", " + IntToString(col) + "]";
      Count(s, '(') == 0 && Count(s, ')') == 0
  {
    NumeralsHaveNoParentheses(row);
    NumeralsHaveNoParentheses(col);
    Count5("[", IntToString(row), ", ", IntToString(col), "]", '(');
    Count5("[", IntToString(row), ", ", IntToString(col), "]", ')');
    Absent("[", '(');
    Absent("[", ')');
    Absent(", ", '(');
    Absent(", ", ')');
    Absent("]", '(');
    Absent("]", ')');
  }

  lemma BinaryBalance(n: Node, floatText: real -> string)
    requires n.Binary? && Serialize(n, floatText).Ok?
    requires Count(Serialize(n.left, floatText).value, '(') == Count(Serialize(n.left, floatText).value, ')')
    requires Count(Serialize(n.right, floatText).value, '(') == Count(Serialize(n.right, floatText).value, ')')
    ensures Count(Serialize(n, floatText).value, '(') == Count(Serialize(n, floatText).value, ')')
  {
    ExpressionVisitorNames(n);
    var ls, rs := Serialize(n.left, floatText).value, Serialize(n.right, floatText).value;
    BinaryPiecesBalance(n.op);
    Count5(Head(n.op), ls, Middle(n.op), rs, Tail(n.op), '(');
    Count5(Head(n.op), ls, Middle(n.op), rs, Tail(n.op), ')');
  }

  lemma UnaryBalance(n: Node, floatText: real -> string)
    requires n.Unary? && Serialize(n, floatText).Ok?
    requires Count(Serialize(n.operand, floatText).value, '(') == Count(Serialize(n.operand, floatText).value, ')')
    ensures Count(Serialize(n, floatText).value, '(') == Count(Serialize(n, floatText).value, ')')
  {
    ExpressionVisitorNames(n);
    var xs := Serialize(n.operand, floatText).value;
    UnaryPiecesBalance(n.uop);
    Count3(Prefix(n.uop), xs, Suffix(n.uop), '(');
    Count3(Prefix(n.uop), xs, Suffix(n.uop), ')');
  }
}
