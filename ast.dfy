/**
 * The syntax tree. Every node class of the source is plain data except
 * `Block`, whose statement list `add` appends to in place; that one is
 * the class `StatementList` below. The binary and unary families share one
 * constructor each, tagged by the Ruby class the node would have.
 */
module Ast {
  import opened Wrappers
  import Tokens

  /** The `BinaryOperator` subclasses, named after their Ruby classes. */
  datatype BinaryClass =
    | AdditionOperation | SubtractionOperation | MultiplicationOperation | DivisionOperation
    | ModuloOperation | ExponentiationOperation
    | AndOperation | OrOperation
    | EqualsOperation | NotEqualsOperation | LessThanOperation | LessThanOrEqualOperation
    | MoreThanOperation | MoreThanOrEqualOperation
    | BitwiseAnd | BitwiseOr | BitwiseXor | BitwiseLeftShift | BitwiseRightShift
    | RValue | LValue
    | MaxOperation | MinOperation | MeanOperation | SumOperation

  /** The `UnaryOperator` subclasses that hold an operand node. */
  datatype UnaryClass = NegationOperation | NotOperation | FloatToInt | IntToFloat | BitwiseNot

  /** The optional `start_index`/`end_index` pair every node carries; both default to nil. */
  datatype Span = NoSpan | Span(startIndex: int, endIndex: int)

  /**
   * A syntax tree node. A literal cell address is a leaf holding its two
   * integer coordinates.
   */
  datatype Node =
    | Binary(op: BinaryClass, left: Node, right: Node, span: Span)
    | Unary(uop: UnaryClass, operand: Node, span: Span)
    | IntegerPrimitive(intValue: int, span: Span)
    | FloatPrimitive(floatValue: real, span: Span)
    | BooleanPrimitive(boolValue: bool, span: Span)
    | StringPrimitive(stringValue: string, span: Span)
    | CellAddressPrimitive(row: int, col: int)
    | Block(statements: seq<Node>)
    | Assignment(variable: Tokens.Token, statement: Node)
    | Reference(name: string, span: Span)
    | Conditional(condition: Node, ifBlock: Node, elseBlock: Option<Node>)
    | ForLoop(loopVariable: Tokens.Token, startRow: Tokens.Token, startCol: Tokens.Token,
              endRow: Tokens.Token, endCol: Tokens.Token, body: Node)

  /** `Conditional.new(condition, if_block)`: the else block defaults to nil. */
  function NewConditional(condition: Node, ifBlock: Node): (n: Node)
    ensures n.Conditional? && n.elseBlock == None
    ensures n.condition == condition && n.ifBlock == ifBlock
  {
    Conditional(condition, ifBlock, None)
  }

  /**
   * The visitor method `traverse` calls, built from the class name: for the
   * operator families `visit_` and the class name without "Operation", in
   * lower case; for the flow nodes `visit_` and the lower-cased class name;
   * and `visit_for_loop` for a for-loop.
   */
  function VisitName(n: Node): string {
    match n
    case Binary(op, _, _, _) => (
      match op
      case AdditionOperation => "visit_addition"
      case SubtractionOperation => "visit_subtraction"
      case MultiplicationOperation => "visit_multiplication"
      case DivisionOperation => "visit_division"
      case ModuloOperation => "visit_modulo"
      case ExponentiationOperation => "visit_exponentiation"
      case AndOperation => "visit_and"
      case OrOperation => "visit_or"
      case EqualsOperation => "visit_equals"
      case NotEqualsOperation => "visit_notequals"
      case LessThanOperation => "visit_lessthan"
      case LessThanOrEqualOperation => "visit_lessthanorequal"
      case MoreThanOperation => "visit_morethan"
      case MoreThanOrEqualOperation => "visit_morethanorequal"
      case BitwiseAnd => "visit_bitwiseand"
      case BitwiseOr => "visit_bitwiseor"
      case BitwiseXor => "visit_bitwisexor"
      case BitwiseLeftShift => "visit_bitwiseleftshift"
      case BitwiseRightShift => "visit_bitwiserightshift"
      case RValue => "visit_rvalue"
      case LValue => "visit_lvalue"
      case MaxOperation => "visit_max"
      case MinOperation => "visit_min"
      case MeanOperation => "visit_mean"
      case SumOperation => "visit_sum")
    case Unary(uop, _, _) => (
      match uop
      case NegationOperation => "visit_negation"
      case NotOperation => "visit_not"
      case FloatToInt => "visit_floattoint"
      case IntToFloat => "visit_inttofloat"
      case BitwiseNot => "visit_bitwisenot")
    case IntegerPrimitive(_, _) => "visit_integerprimitive"
    case FloatPrimitive(_, _) => "visit_floatprimitive"
    case BooleanPrimitive(_, _) => "visit_booleanprimitive"
    case StringPrimitive(_, _) => "visit_stringprimitive"
    case CellAddressPrimitive(_, _) => "visit_celladdressprimitive"
    case Block(_) => "visit_block"
    case Assignment(_, _) => "visit_assignment"
    case Reference(_, _) => "visit_reference"
    case Conditional(_, _, _) => "visit_conditional"
    case ForLoop(_, _, _, _, _, _) => "visit_for_loop"
  }

  /** The `visit_*` methods the evaluator defines. */
  const EvaluatorVisitors: set<string> := {
    "visit_integerprimitive", "visit_floatprimitive", "visit_booleanprimitive",
    "visit_stringprimitive", "visit_celladdressprimitive",
    "visit_addition", "visit_subtraction", "visit_multiplication", "visit_division",
    "visit_modulo", "visit_exponentiation", "visit_negation",
    "visit_equals", "visit_notequals", "visit_lessthan", "visit_lessthanorequal",
    "visit_morethan", "visit_morethanorequal",
    "visit_bitwiseand", "visit_bitwiseor", "visit_bitwisexor", "visit_bitwisenot",
    "visit_bitwiseleftshift", "visit_bitwiserightshift",
    "visit_floattoint", "visit_inttofloat",
    "visit_max", "visit_min", "visit_mean", "visit_sum",
    "visit_and", "visit_or", "visit_not",
    "visit_rvalue", "visit_lvalue",
    "visit_block", "visit_assignment", "visit_reference", "visit_conditional", "visit_for_loop"
  }

  /**
   * `traverse` never misses in the evaluator: whatever the node, the name it
   * builds is one the evaluator defines, so dispatching by an exhaustive
   * `match` on the node is the same as dispatching by name.
   */
  lemma EvaluatorHandlesEveryNode(n: Node)
    ensures VisitName(n) in EvaluatorVisitors
  {
  }

  /**
   * `Block` with the in-place `add`: a statement list that only ever grows
   * at its end.
   */
  class StatementList {
    var statements: seq<Node>

    /** `Block.new(statements)`. */
    constructor (statements: seq<Node>)
      ensures this.statements == statements
    {
      this.statements := statements;
    }

    /** The block node with the statements gathered so far. */
    function AsNode(): (n: Node)
      reads this
      ensures n.Block? && n.statements == statements
    {
      Block(statements)
    }

    /** `add`: appends the statement at the end and keeps the earlier ones in order. */
    method Add(statement: Node)
      modifies this
      ensures statements == old(statements) + [statement]
      ensures |statements| == |old(statements)| + 1 && statements[|statements| - 1] == statement
      ensures forall i :: 0 <= i < |old(statements)| ==> statements[i] == old(statements)[i]
    {
      statements := statements + [statement];
    }
  }
}
