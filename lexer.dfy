/**
 * The lexer: a cursor over the source text, a buffer of pending characters
 * and the list of tokens emitted so far.
 *
 * `Step` and `Run` describe one pass of the main loop and the whole loop as
 * functions of a `LexState`; the class `Lexer` is the mutable object itself,
 * whose methods are proved to move between exactly those states.
 */
module Lexing {
  import opened Tokens

  /** The three mutable fields of a lexer: cursor, pending text, emitted tokens. */
  datatype LexState = LexState(index: nat, pending: string, tokens: seq<Token>)

  const Init := LexState(0, "", [])

  /** `@source[i] == c`; reading past the end yields nil, which equals no character. */
  predicate At(src: string, i: nat, c: char) {
    i < |src| && src[i] == c
  }

  predicate IsNumeric(c: char) {
    '0' <= c <= '9'
  }

  /**
   * `has_alphabetic`: the character's lower-case form lies between "a" and "z".
   * Besides the ASCII letters, two characters pass this test because their
   * full Unicode lower-case forms start with an ASCII letter: the Kelvin sign
   * (lower-cased to "k") and the capital I with dot above (lower-cased to "i"
   * followed by a combining dot).
   */
  predicate IsAlphabetic(c: char) {
    ('a' <= c <= 'z') || ('A' <= c <= 'Z') || c == '\U{212A}' || c == '\U{0130}'
  }

  predicate IsWordChar(c: char) {
    IsAlphabetic(c) || IsNumeric(c)
  }

  predicate IsNumberChar(c: char) {
    IsNumeric(c) || c == '.'
  }

  /**
   * The first index a new token can start at: every character before it was
   * either emitted or belongs to the pending text.
   */
  function Floor(st: LexState): int {
    st.index - |st.pending|
  }

  /** A token whose indices cover exactly its text and lie wholly before `floor`. */
  predicate Placed(t: Token, floor: int) {
    0 <= t.startIndex && t.endIndex - t.startIndex + 1 == |t.text| && t.startIndex < floor && t.endIndex < floor
  }

  /** Tokens in source order: each token starts after the previous one ends. */
  predicate Ordered(ts: seq<Token>) {
    forall j, k :: 0 <= j < k < |ts| ==> ts[j].endIndex < ts[k].startIndex && ts[j].startIndex < ts[k].startIndex
  }

  /** The state invariant of the main loop. */
  predicate Spanned(st: LexState) {
    |st.pending| <= st.index && Ordered(st.tokens) && forall t <- st.tokens :: Placed(t, Floor(st))
  }

  /**
   * What one pass of the loop does to the state: either it only moves the
   * cursor (keeping or growing the pending text), or it emits exactly one
   * token, which starts at the old floor, covers its text and ends before
   * the new cursor.
   */
  predicate Advanced(st: LexState, r: LexState) {
    (r.tokens == st.tokens && Floor(r) >= Floor(st) && |r.pending| <= r.index)
    || (|r.tokens| == |st.tokens| + 1 && r.tokens[..|st.tokens|] == st.tokens && r.pending == ""
        && r.tokens[|st.tokens|].startIndex == Floor(st)
        && r.tokens[|st.tokens|].endIndex - r.tokens[|st.tokens|].startIndex + 1 == |r.tokens[|st.tokens|].text|
        && r.tokens[|st.tokens|].startIndex < r.index && r.tokens[|st.tokens|].endIndex < r.index)
  }

  /** `capture`: move the current character into the pending text. */
  function Captured(src: string, st: LexState): (r: LexState)
    requires st.index < |src|
    ensures r.index == st.index + 1 && r.tokens == st.tokens
    ensures r.pending == st.pending + [src[st.index]]
  {
    LexState(st.index + 1, st.pending + [src[st.index]], st.tokens)
  }

  /** `emit_token`: the pending text becomes a token ending just before the cursor. */
  function Emit(st: LexState, kind: Kind): (r: LexState)
    ensures r.index == st.index && r.pending == ""
  {
    LexState(st.index, "", st.tokens + [Token(kind, st.pending, st.index - |st.pending|, st.index - 1)])
  }

  /** Capture while the current character is a letter or digit. */
  function CaptureWord(src: string, st: LexState): (r: LexState)
    requires st.index <= |src|
    ensures st.index <= r.index <= |src| && r.tokens == st.tokens
    ensures r.pending == st.pending + src[st.index..r.index]
    ensures r.index == |src| || !IsWordChar(src[r.index])
    ensures forall i :: st.index <= i < r.index ==> IsWordChar(src[i])
    decreases |src| - st.index
  {
    if st.index < |src| && IsWordChar(src[st.index]) then
      var r := CaptureWord(src, Captured(src, st));
      assert src[st.index..r.index] == [src[st.index]] + src[st.index + 1..r.index];
      r
    else st
  }

  /** Capture while the current character is a digit. */
  function CaptureDigits(src: string, st: LexState): (r: LexState)
    requires st.index <= |src|
    ensures st.index <= r.index <= |src| && r.tokens == st.tokens
    ensures r.pending == st.pending + src[st.index..r.index]
    ensures r.index == |src| || !IsNumeric(src[r.index])
    ensures forall i :: st.index <= i < r.index ==> IsNumeric(src[i])
    decreases |src| - st.index
  {
    if st.index < |src| && IsNumeric(src[st.index]) then
      var r := CaptureDigits(src, Captured(src, st));
      assert src[st.index..r.index] == [src[st.index]] + src[st.index + 1..r.index];
      r
    else st
  }

  /** Capture while the current character is a digit or a dot. */
  function CaptureNumber(src: string, st: LexState): (r: LexState)
    requires st.index <= |src|
    ensures st.index <= r.index <= |src| && r.tokens == st.tokens
    ensures r.pending == st.pending + src[st.index..r.index]
    ensures r.index == |src| || !IsNumberChar(src[r.index])
    ensures forall i :: st.index <= i < r.index ==> IsNumberChar(src[i])
    decreases |src| - st.index
  {
    if st.index < |src| && IsNumberChar(src[st.index]) then
      var r := CaptureNumber(src, Captured(src, st));
      assert src[st.index..r.index] == [src[st.index]] + src[st.index + 1..r.index];
      r
    else st
  }

  /** The keyword table applied to a captured word. */
  function Keyword(w: string): (k: Kind)
    ensures k in {Sum, Mean, Min, Max, Float, Int, True, False, Linebreak,
                  If, Else, End, For, In, Each, Do, Identifier}
  {
    if w == "sum" then Sum
    else if w == "mean" then Mean
    else if w == "min" then Min
    else if w == "max" then Max
    else if w == "float" then Float
    else if w == "int" then Int
    else if w == "true" then True
    else if w == "false" then False
    else if w == "/n" then Linebreak
    else if w == "if" then If
    else if w == "else" then Else
    else if w == "end" then End
    else if w == "for" then For
    else if w == "in" then In
    else if w == "each" then Each
    else if w == "do" then Do
    else Identifier
  }

  /** One pass of the main loop of `lex`, from a cursor inside the source. */
  function Step(src: string, st: LexState): (r: LexState)
    requires st.index < |src|
    ensures st.index < r.index <= |src|
  {
    var i := st.index;
    var c := src[i];
    if c == '#' && At(src, i + 1, '[') then Emit(Captured(src, Captured(src, st)), HashBracketStart)
    else if c == '[' then Emit(Captured(src, st), LeftSquareBracket)
    else if c == ']' then Emit(Captured(src, st), RightSquareBracket)
    else if c == ',' then Emit(Captured(src, st), Comma)
    else if c == '(' then Emit(Captured(src, st), LeftParenthesis)
    else if c == ')' then Emit(Captured(src, st), RightParenthesis)
    else if c == '+' then Emit(Captured(src, st), Plus)
    else StepOperator(src, st)
  }

  /** The arithmetic and logical operators of the loop body's `if` chain, from `-` to `|`. */
  function StepOperator(src: string, st: LexState): (r: LexState)
    requires st.index < |src|
    ensures st.index < r.index <= |src|
  {
    var i := st.index;
    var c := src[i];
    if c == '-' then
      var s1 := Captured(src, st);
      if At(src, s1.index, '>') then Emit(Captured(src, s1), Assignment) else Emit(s1, Minus)
    else if c == '*' then
      var s1 := Captured(src, st);
      if At(src, s1.index, '*') then Emit(Captured(src, s1), DoubleAsterisk) else Emit(s1, Asterisk)
    else if c == '/' then Emit(Captured(src, st), Slash)
    else if c == '%' then Emit(Captured(src, st), Percent)
    else if c == '&' then
      var s1 := Captured(src, st);
      if At(src, s1.index, '&') then Emit(Captured(src, s1), And) else Emit(s1, Ampersand)
    else if c == '|' then
      var s1 := Captured(src, st);
      if At(src, s1.index, '|') then Emit(Captured(src, s1), Or) else Emit(s1, Pipe)
    else StepRest(src, st)
  }

  /** The second part of the loop body's `if` chain, from `^` on. */
  function StepRest(src: string, st: LexState): (r: LexState)
    requires st.index < |src|
    ensures st.index < r.index <= |src|
  {
    var i := st.index;
    var c := src[i];
    if c == '^' then Emit(Captured(src, st), Caret)
    else if c == '~' then Emit(Captured(src, st), Tilde)
    else if c == '.' && At(src, i + 1, '.') then Emit(Captured(src, Captured(src, st)), DotDot)
    else if c == '.' then Emit(CaptureDigits(src, Captured(src, st)), Number)
    else if c == '<' then
      var s1 := Captured(src, st);
      if At(src, s1.index, '=') then Emit(Captured(src, s1), LessThanEqual)
      else if At(src, s1.index, '<') then Emit(Captured(src, s1), LeftShift)
      else Emit(s1, LessThan)
    else if c == '>' then
      var s1 := Captured(src, st);
      if At(src, s1.index, '=') then Emit(Captured(src, s1), MoreThanEqual)
      else if At(src, s1.index, '>') then Emit(Captured(src, s1), RightShift)
      else Emit(s1, MoreThan)
    else StepLast(src, st)
  }

  /** The last part of the loop body's `if` chain, from `=` on. */
  function StepLast(src: string, st: LexState): (r: LexState)
    requires st.index < |src|
    ensures st.index < r.index <= |src|
  {
    var i := st.index;
    var c := src[i];
    if c == '=' then
      var s1 := Captured(src, st);
      if At(src, s1.index, '=') then Emit(Captured(src, s1), EqualSign) else s1
    else if c == '!' then
      var s1 := Captured(src, st);
      if At(src, s1.index, '=') then Emit(Captured(src, s1), NotEqual) else Emit(s1, Exclamation)
    else if c == '\n' then Emit(Captured(src, st), Linebreak)
    else if c == '\\' then
      var s1 := Captured(src, st);
      if At(src, s1.index, 'n') then Emit(Captured(src, s1), Linebreak) else s1
    else if IsAlphabetic(c) then
      var s1 := CaptureWord(src, st);
      Emit(s1, Keyword(s1.pending))
    else if IsNumeric(c) then Emit(CaptureNumber(src, st), Number)
    else if c == ' ' then LexState(i + 1, st.pending, st.tokens)
    else
      var s1 := Emit(st, Invalid);
      LexState(i + 1, s1.pending, s1.tokens)
  }

  /** The main loop of `lex`: step until the cursor reaches the end of the source. */
  function Run(src: string, st: LexState): (r: LexState)
    requires st.index <= |src|
    ensures r.index == |src|
    decreases |src| - st.index
  {
    if st.index < |src| then Run(src, Step(src, st)) else st
  }

  /** The token list `Lexer.new(src).lex` returns. */
  function Lex(src: string): seq<Token> {
    Run(src, Init).tokens
  }

  class Lexer {
    const source: string
    var index: nat
    var tokenSoFar: string
    var tokens: seq<Token>

    constructor(source: string)
      ensures this.source == source && State() == Init
    {
      this.source := source;
      index := 0;
      tokenSoFar := "";
      tokens := [];
    }

    function State(): LexState
      reads this
    {
      LexState(index, tokenSoFar, tokens)
    }

    predicate Has(target: char)
      reads this
    {
      At(source, index, target)
    }

    predicate HasAlphabetic()
      reads this
    {
      index < |source| && IsAlphabetic(source[index])
    }

    predicate HasNumeric()
      reads this
    {
      index < |source| && IsNumeric(source[index])
    }

    method Capture()
      requires index < |source|
      modifies this`index, this`tokenSoFar
      ensures State() == Captured(source, old(State()))
    {
      tokenSoFar := tokenSoFar + [source[index]];
      index := index + 1;
    }

    method EmitToken(kind: Kind)
      modifies this`tokens, this`tokenSoFar
      ensures State() == Emit(old(State()), kind)
    {
      var token := Token(kind, tokenSoFar, index - |tokenSoFar|, index - 1);
      tokens := tokens + [token];
      tokenSoFar := "";
    }

    /** The body of the main loop; proved to perform exactly one `Step`. */
    method LexOne()
      requires index < |source|
      modifies this`index, this`tokenSoFar, this`tokens
      ensures State() == Step(source, old(State()))
    {
      if Has('#') && At(source, index + 1, '[') {
        Capture();
        Capture();
        EmitToken(HashBracketStart);
      } else if Has('[') {
        Capture();
        EmitToken(LeftSquareBracket);
      } else if Has(']') {
        Capture();
        EmitToken(RightSquareBracket);
      } else if Has(',') {
        Capture();
        EmitToken(Comma);
      } else if Has('(') {
        Capture();
        EmitToken(LeftParenthesis);
      } else if Has(')') {
        Capture();
        EmitToken(RightParenthesis);
      } else if Has('+') {
        Capture();
        EmitToken(Plus);
      } else {
        LexOperator();
      }
    }

    /** The operator part of the loop body's `if` chain, from `-` to `|`. */
    method LexOperator()
      requires index < |source|
      modifies this`index, this`tokenSoFar, this`tokens
      ensures State() == StepOperator(source, old(State()))
    {
      if Has('-') {
        Capture();
        if Has('>') {
          Capture();
          EmitToken(Assignment);
        } else {
          EmitToken(Minus);
        }
      } else if Has('*') {
        Capture();
        if Has('*') {
          Capture();
          EmitToken(DoubleAsterisk);
        } else {
          EmitToken(Asterisk);
        }
      } else if Has('/') {
        Capture();
        EmitToken(Slash);
      } else if Has('%') {
        Capture();
        EmitToken(Percent);
      } else if Has('&') {
        Capture();
        if Has('&') {
          Capture();
          EmitToken(And);
        } else {
          EmitToken(Ampersand);
        }
      } else if Has('|') {
        Capture();
        if Has('|') {
          Capture();
          EmitToken(Or);
        } else {
          EmitToken(Pipe);
        }
      } else {
        LexRest();
      }
    }

    /** The second half of the loop body's `if` chain, from `^` on. */
    method LexRest()
      requires index < |source|
      modifies this`index, this`tokenSoFar, this`tokens
      ensures State() == StepRest(source, old(State()))
    {
      if Has('^') {
        Capture();
        EmitToken(Caret);
      } else if Has('~') {
        Capture();
        EmitToken(Tilde);
      } else if Has('.') && At(source, index + 1, '.') {
        Capture();
        Capture();
        EmitToken(DotDot);
      } else if Has('.') {
        Capture();
        CaptureDigitRun();
        EmitToken(Number);
      } else if Has('<') {
        Capture();
        if Has('=') {
          Capture();
          EmitToken(LessThanEqual);
        } else if Has('<') {
          Capture();
          EmitToken(LeftShift);
        } else {
          EmitToken(LessThan);
        }
      } else if Has('>') {
        Capture();
        if Has('=') {
          Capture();
          EmitToken(MoreThanEqual);
        } else if Has('>') {
          Capture();
          EmitToken(RightShift);
        } else {
          EmitToken(MoreThan);
        }
      } else {
        LexLast();
      }
    }

    /** The last part of the loop body's `if` chain, from `=` on. */
    method LexLast()
      requires index < |source|
      modifies this`index, this`tokenSoFar, this`tokens
      ensures State() == StepLast(source, old(State()))
    {
      if Has('=') {
        Capture();
        if Has('=') {
          Capture();
          EmitToken(EqualSign);
        }
      } else if Has('!') {
        Capture();
        if Has('=') {
          Capture();
          EmitToken(NotEqual);
        } else {
          EmitToken(Exclamation);
        }
      } else if Has('\n') {
        Capture();
        EmitToken(Linebreak);
      } else if Has('\\') {
        Capture();
        if Has('n') {
          Capture();
          EmitToken(Linebreak);
        }
      } else if HasAlphabetic() {
        CaptureWordRun();
        EmitToken(Keyword(tokenSoFar));
      } else if HasNumeric() {
        CaptureNumberRun();
        EmitToken(Number);
      } else if Has(' ') {
        index := index + 1;
      } else {
        EmitToken(Invalid);
        index := index + 1;
      }
    }

    /** Capture the run of digits under the cursor. */
    method CaptureDigitRun()
      requires index <= |source|
      modifies this`index, this`tokenSoFar
      ensures State() == CaptureDigits(source, old(State()))
    {
      while HasNumeric()
        invariant index <= |source|
        invariant CaptureDigits(source, State()) == CaptureDigits(source, old(State()))
        decreases |source| - index
      {
        Capture();
      }
    }

    /** Capture the run of letters and digits under the cursor. */
    method CaptureWordRun()
      requires index <= |source|
      modifies this`index, this`tokenSoFar
      ensures State() == CaptureWord(source, old(State()))
    {
      while HasAlphabetic() || HasNumeric()
        invariant index <= |source|
        invariant CaptureWord(source, State()) == CaptureWord(source, old(State()))
        decreases |source| - index
      {
        Capture();
      }
    }

    /** Capture the run of digits and dots under the cursor. */
    method CaptureNumberRun()
      requires index <= |source|
      modifies this`index, this`tokenSoFar
      ensures State() == CaptureNumber(source, old(State()))
    {
      while HasNumeric() || Has('.')
        invariant index <= |source|
        invariant CaptureNumber(source, State()) == CaptureNumber(source, old(State()))
        decreases |source| - index
      {
        Capture();
      }
    }

    /** `lex`: run the main loop to the end of the source and return the tokens. */
    method Lex() returns (result: seq<Token>)
      modifies this`index, this`tokenSoFar, this`tokens
      ensures index == |source| || old(index) > |source|
      ensures old(index) <= |source| ==> State() == Run(source, old(State()))
      ensures result == tokens
    {
      while index < |source|
        invariant old(index) <= |source| ==> index <= |source|
        invariant old(index) <= |source| ==> Run(source, State()) == Run(source, old(State()))
        invariant old(index) > |source| ==> State() == old(State())
        decreases |source| - index
      {
        LexOne();
      }
      result := tokens;
    }
  }
}
