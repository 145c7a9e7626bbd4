/**
 * The lexer's output record: a token kind (a Ruby symbol in the source), the
 * token's text and the indices of its first and last character.
 */
module Tokens {
  import opened Decimal

  datatype Kind =
    | HashBracketStart | LeftSquareBracket | RightSquareBracket | Comma
    | LeftParenthesis | RightParenthesis
    | Plus | Assignment | Minus | DoubleAsterisk | Asterisk | Slash | Percent
    | And | Ampersand | Or | Pipe | Caret | Tilde | DotDot | Number
    | LessThanEqual | LeftShift | LessThan | MoreThanEqual | RightShift | MoreThan
    | EqualSign | NotEqual | Exclamation | Linebreak
    | Sum | Mean | Min | Max | Float | Int | True | False
    | If | Else | End | For | In | Each | Do
    | Identifier | Invalid

  /** An immutable record: the datatype has no update operations, only readers. */
  datatype Token = Token(kind: Kind, text: string, startIndex: int, endIndex: int)

  /** The name of the kind's Ruby symbol, as `Symbol#to_s` prints it. */
  function KindName(k: Kind): string {
    match k
    case HashBracketStart => "hash_bracket_start"
    case LeftSquareBracket => "left_square_bracket"
    case RightSquareBracket => "right_square_bracket"
    case Comma => "comma"
    case LeftParenthesis => "left_parenthesis"
    case RightParenthesis => "right_parenthesis"
    case Plus => "plus"
    case Assignment => "assignment"
    case Minus => "minus"
    case DoubleAsterisk => "double_asterisk"
    case Asterisk => "asterisk"
    case Slash => "slash"
    case Percent => "percent"
    case And => "and"
    case Ampersand => "ampersand"
    case Or => "or"
    case Pipe => "pipe"
    case Caret => "caret"
    case Tilde => "tilde"
    case DotDot => "dot_dot"
    case Number => "number"
    case LessThanEqual => "less_than_equal"
    case LeftShift => "left_shift"
    case LessThan => "less_than"
    case MoreThanEqual => "more_than_equal"
    case RightShift => "right_shift"
    case MoreThan => "more_than"
    case EqualSign => "equal_sign"
    case NotEqual => "not_equal"
    case Exclamation => "exclamation"
    case Linebreak => "linebreak"
    case Sum => "sum"
    case Mean => "mean"
    case Min => "min"
    case Max => "max"
    case Float => "float"
    case Int => "int"
    case True => "true"
    case False => "false"
    case If => "if"
    case Else => "else"
    case End => "end"
    case For => "for"
    case In => "in"
    case Each => "each"
    case Do => "do"
    case Identifier => "identifier"
    case Invalid => "invalid"
  }

  /**
   * Token#to_s: the kind's name, four spaces, the text, a comma and the
   * bracketed start and end indices. It reads the four fields only.
   */
  function ToString(t: Token): (s: string)
  {
    KindName(t.kind) + "    " + t.text + ", [" + IntToString(t.startIndex) + ", "
      + IntToString(t.endIndex) + "]"
  }

  /**
   * The layout of `ToString`, for any name, text and index strings: each
   * field and each separator sits at the offset the lengths before it give.
   */
  lemma Layout(n: string, text: string, a: string, b: string)
    ensures var s := n + "    " + text + ", [" + a + ", " + b + "]";
      var m := |n| + 4 + |text|;
      |s| == m + 6 + |a| + |b|
      && s[..|n|] == n
      && s[|n|..|n| + 4] == "    "
      && s[|n| + 4..m] == text
      && s[m..m + 3] == ", ["
      && s[m + 3..m + 3 + |a|] == a
      && s[m + 3 + |a|..m + 5 + |a|] == ", "
      && s[m + 5 + |a|..|s| - 1] == b
      && s[|s| - 1] == ']'
  {
    var s := n + "    " + text + ", [" + a + ", " + b + "]";
    var m := |n| + 4 + |text|;
    Piece([], n, "    " + text + ", [" + a + ", " + b + "]");
    Piece(n, "    ", text + ", [" + a + ", " + b + "]");
    Piece(n + "    ", text, ", [" + a + ", " + b + "]");
    Piece(n + "    " + text, ", [", a + ", " + b + "]");
    Piece(n + "    " + text + ", [", a, ", " + b + "]");
    Piece(n + "    " + text + ", [" + a, ", ", b + "]");
    Piece(n + "    " + text + ", [" + a + ", ", b, "]");
  }

  /** In `x + y + z`, the part after `x` and before `z` is `y`. */
  lemma Piece(x: string, y: string, z: string)
    ensures |x + y + z| == |x| + |y| + |z|
    ensures (x + y + z)[|x|..|x| + |y|] == y
    ensures x + (y + z) == x + y + z
  {
  }

  /**
   * `ToString(t)` reads back: the kind's name, four spaces, the text, then
   * ", [", the start index, ", ", the end index and a closing bracket.
   */
  lemma ToStringShowsFields(t: Token)
    ensures var n := |KindName(t.kind)|;
      var s := ToString(t);
      var m := n + 4 + |t.text|;
      var a := IntToString(t.startIndex);
      var b := IntToString(t.endIndex);
      |s| == m + 6 + |a| + |b|
      && s[..n] == KindName(t.kind)
      && s[n..n + 4] == "    "
      && s[n + 4..m] == t.text
      && s[m..m + 3] == ", ["
      && s[m + 3..m + 3 + |a|] == a
      && s[m + 3 + |a|..m + 5 + |a|] == ", "
      && s[m + 5 + |a|..|s| - 1] == b
      && s[|s| - 1] == ']'
  {
    Layout(KindName(t.kind), t.text, IntToString(t.startIndex), IntToString(t.endIndex));
  }
}
