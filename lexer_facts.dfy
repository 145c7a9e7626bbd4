/**
 * Properties of the lexer: every token covers exactly its text, tokens come
 * out in source order with disjoint spans, the keyword table is exact, and
 * worked examples of the operator, number, line-break and invalid-character
 * rules.
 */
module LexerFacts {
  import opened Wrappers
  import opened Tokens
  import opened Lexing

  lemma CapturedKeepsFloor(src: string, st: LexState)
    requires st.index < |src|
    ensures Floor(Captured(src, st)) == Floor(st)
  {
  }

  /** Emitting a non-empty pending text that was captured from `st` on advances `st`. */
  lemma EmitAdvanced(st: LexState, s1: LexState)
    requires s1.tokens == st.tokens && Floor(s1) == Floor(st) && s1.pending != ""
    ensures forall k :: Advanced(st, Emit(s1, k))
  {
  }

  /** A loop pass either only moves the cursor or emits one token at the floor. */
  lemma {:induction false} StepAdvanced(src: string, st: LexState)
    requires st.index < |src| && |st.pending| <= st.index
    ensures Advanced(st, Step(src, st))
  {
    var c := src[st.index];
    var s1 := Captured(src, st);
    if c == '#' && At(src, st.index + 1, '[') {
      EmitAdvanced(st, Captured(src, s1));
    } else if c == '[' || c == ']' || c == ',' || c == '(' || c == ')' || c == '+' {
      EmitAdvanced(st, s1);
    } else {
      StepOperatorAdvanced(src, st);
    }
  }

  lemma {:induction false} StepOperatorAdvanced(src: string, st: LexState)
    requires st.index < |src| && |st.pending| <= st.index
    ensures Advanced(st, StepOperator(src, st))
  {
    var c := src[st.index];
    var s1 := Captured(src, st);
    if c == '-' || c == '*' || c == '/' || c == '%' || c == '&' || c == '|' {
      EmitAdvanced(st, s1);
      if s1.index < |src| {
        EmitAdvanced(st, Captured(src, s1));
      }
    } else {
      StepRestAdvanced(src, st);
    }
  }

  lemma {:induction false} StepRestAdvanced(src: string, st: LexState)
    requires st.index < |src| && |st.pending| <= st.index
    ensures Advanced(st, StepRest(src, st))
  {
    var c := src[st.index];
    var s1 := Captured(src, st);
    if c == '.' && !At(src, st.index + 1, '.') {
      var s2 := CaptureDigits(src, s1);
      assert Floor(s2) == Floor(st);
      EmitAdvanced(st, s2);
    } else if c == '^' || c == '~' || c == '.' || c == '<' || c == '>' {
      EmitAdvanced(st, s1);
      if s1.index < |src| {
        EmitAdvanced(st, Captured(src, s1));
      }
    } else {
      StepLastAdvanced(src, st);
    }
  }

  lemma {:induction false} StepLastAdvanced(src: string, st: LexState)
    requires st.index < |src| && |st.pending| <= st.index
    ensures Advanced(st, StepLast(src, st))
  {
    var c := src[st.index];
    if c == '=' || c == '!' || c == '\\' {
      var s1 := Captured(src, st);
      EmitAdvanced(st, s1);
      if s1.index < |src| {
        EmitAdvanced(st, Captured(src, s1));
      }
    } else if c == '\n' {
      EmitAdvanced(st, Captured(src, st));
    } else if IsAlphabetic(c) {
      var s1 := CaptureWord(src, st);
      assert Floor(s1) == Floor(st);
    } else if IsNumeric(c) {
      var s1 := CaptureNumber(src, st);
      assert Floor(s1) == Floor(st);
    }
  }

  /** A loop pass keeps the span invariant. */
  lemma StepSpanned(src: string, st: LexState)
    requires st.index < |src| && Spanned(st)
    ensures Spanned(Step(src, st))
  {
    StepAdvanced(src, st);
    var r := Step(src, st);
    if r.tokens != st.tokens {
      var n := |st.tokens|;
      var t := r.tokens[n];
      assert r.tokens == st.tokens + [t];
      forall j, k | 0 <= j < k < |r.tokens|
        ensures r.tokens[j].endIndex < r.tokens[k].startIndex && r.tokens[j].startIndex < r.tokens[k].startIndex
      {
        if k == n {
          assert Placed(st.tokens[j], Floor(st));
        }
      }
      forall u <- r.tokens
        ensures Placed(u, Floor(r))
      {
        if u != t {
          assert u in st.tokens;
        }
      }
    }
  }

  /** The whole loop keeps the span invariant. */
  lemma {:induction false} RunSpanned(src: string, st: LexState)
    requires st.index <= |src| && Spanned(st)
    ensures Spanned(Run(src, st))
    decreases |src| - st.index
  {
    if st.index < |src| {
      StepSpanned(src, st);
      RunSpanned(src, Step(src, st));
    }
  }

  /**
   * Every token `lex` returns satisfies `end_index - start_index + 1 ==
   * text.length`, lies inside the source, and the tokens come out in source
   * order with disjoint spans.
   */
  lemma LexSpans(src: string)
    ensures forall t <- Lex(src) :: 0 <= t.startIndex && t.endIndex < |src|
                                   && t.endIndex - t.startIndex + 1 == |t.text|
    ensures forall j, k :: 0 <= j < k < |Lex(src)| ==>
              Lex(src)[j].endIndex < Lex(src)[k].startIndex && Lex(src)[j].startIndex < Lex(src)[k].startIndex
  {
    RunSpanned(src, Init);
    var r := Run(src, Init);
    assert forall t <- r.tokens :: Placed(t, Floor(r));
  }

  /** Only the word "/n" is lexed as a line break by the keyword table. */
  lemma OnlySlashNIsLinebreak(w: string)
    ensures Keyword(w) == Linebreak <==> w == "/n"
  {
  }

  /** Each of the fifteen keywords is looked up to its own kind. */
  lemma KeywordWords()
    ensures Keyword("sum") == Sum
      && Keyword("mean") == Mean
      && Keyword("min") == Min
      && Keyword("max") == Max
      && Keyword("float") == Float
      && Keyword("int") == Int
      && Keyword("true") == True
      && Keyword("false") == False
      && Keyword("if") == If
      && Keyword("else") == Else
      && Keyword("end") == End
      && Keyword("for") == For
      && Keyword("in") == In
      && Keyword("each") == Each
      && Keyword("do") == Do
  {
    StatisticWords();
    LiteralWords();
    BranchWords();
    LoopWords();
  }

  lemma StatisticWords()
    ensures Keyword("sum") == Sum && Keyword("mean") == Mean && Keyword("min") == Min && Keyword("max") == Max
  {
  }

  lemma LiteralWords()
    ensures Keyword("float") == Float && Keyword("int") == Int && Keyword("true") == True && Keyword("false") == False
  {
  }

  lemma BranchWords()
    ensures Keyword("if") == If && Keyword("else") == Else && Keyword("end") == End
  {
  }

  lemma LoopWords()
    ensures Keyword("for") == For && Keyword("in") == In && Keyword("each") == Each && Keyword("do") == Do
  {
  }

  /** A word is looked up to a keyword kind only when it is that keyword's own word. */
  lemma OnlyKeywordWords(w: string)
    ensures
      (Keyword(w) == Sum ==> w == "sum")
      && (Keyword(w) == Mean ==> w == "mean")
      && (Keyword(w) == Min ==> w == "min")
      && (Keyword(w) == Max ==> w == "max")
      && (Keyword(w) == Float ==> w == "float")
      && (Keyword(w) == Int ==> w == "int")
      && (Keyword(w) == True ==> w == "true")
      && (Keyword(w) == False ==> w == "false")
      && (Keyword(w) == If ==> w == "if")
      && (Keyword(w) == Else ==> w == "else")
      && (Keyword(w) == End ==> w == "end")
      && (Keyword(w) == For ==> w == "for")
      && (Keyword(w) == In ==> w == "in")
      && (Keyword(w) == Each ==> w == "each")
      && (Keyword(w) == Do ==> w == "do")
  {
  }

  /** A space only moves the cursor. */
  lemma StepSpace(src: string, st: LexState)
    requires st.index < |src| && src[st.index] == ' '
    ensures Step(src, st) == LexState(st.index + 1, st.pending, st.tokens)
  {
  }

  /** Running the loop through a chain of states, each one pass after the previous one. */
  lemma {:induction false} RunChain(src: string, states: seq<LexState>)
    requires |states| > 0 && states[|states| - 1].index == |src|
    requires forall k :: 0 <= k < |states| - 1 ==> states[k].index < |src| && Step(src, states[k]) == states[k + 1]
    ensures Run(src, states[0]) == states[|states| - 1]
    decreases |states|
  {
    if |states| > 1 {
      RunChain(src, states[1..]);
    }
  }

  /** The characters that always make a one-character token on their own. */
  function SingleKind(c: char): Option<Kind> {
    if c == '[' then Some(LeftSquareBracket)
    else if c == ']' then Some(RightSquareBracket)
    else if c == ',' then Some(Comma)
    else if c == '(' then Some(LeftParenthesis)
    else if c == ')' then Some(RightParenthesis)
    else if c == '+' then Some(Plus)
    else if c == '/' then Some(Slash)
    else if c == '%' then Some(Percent)
    else if c == '^' then Some(Caret)
    else if c == '~' then Some(Tilde)
    else if c == '\n' then Some(Linebreak)
    else None
  }

  /** The two-character operators, looked up by their characters. */
  function PairKind(a: char, b: char): Option<Kind> {
    if a == '#' && b == '[' then Some(HashBracketStart)
    else if a == '-' && b == '>' then Some(Assignment)
    else if a == '*' && b == '*' then Some(DoubleAsterisk)
    else if a == '&' && b == '&' then Some(And)
    else if a == '|' && b == '|' then Some(Or)
    else if a == '.' && b == '.' then Some(DotDot)
    else if a == '<' && b == '=' then Some(LessThanEqual)
    else if a == '<' && b == '<' then Some(LeftShift)
    else if a == '>' && b == '=' then Some(MoreThanEqual)
    else if a == '>' && b == '>' then Some(RightShift)
    else if a == '=' && b == '=' then Some(EqualSign)
    else if a == '!' && b == '=' then Some(NotEqual)
    else if a == '\\' && b == 'n' then Some(Linebreak)
    else None
  }

  /** The kind a first character of a two-character operator makes when its partner does not follow. */
  function AloneKind(c: char): Option<Kind> {
    if c == '-' then Some(Minus)
    else if c == '*' then Some(Asterisk)
    else if c == '&' then Some(Ampersand)
    else if c == '|' then Some(Pipe)
    else if c == '<' then Some(LessThan)
    else if c == '>' then Some(MoreThan)
    else if c == '!' then Some(Exclamation)
    else None
  }

  /** One-character tokens: the character becomes the token's text and nothing else is consumed. */
  lemma StepSingle(src: string, st: LexState)
    requires st.index < |src| && SingleKind(src[st.index]).Some?
    ensures Step(src, st) == Emit(Captured(src, st), SingleKind(src[st.index]).value)
  {
  }

  /**
   * Two-character operators win by one character of lookahead: when the
   * partner character follows, both are captured into one token.
   */
  lemma StepPair(src: string, st: LexState)
    requires st.index + 1 < |src| && PairKind(src[st.index], src[st.index + 1]).Some?
    ensures Step(src, st) == Emit(Captured(src, Captured(src, st)), PairKind(src[st.index], src[st.index + 1]).value)
  {
  }

  /** Without its partner, the first character of a two-character operator is a token of its own. */
  lemma StepAlone(src: string, st: LexState)
    requires st.index < |src| && AloneKind(src[st.index]).Some?
    requires st.index + 1 == |src| || PairKind(src[st.index], src[st.index + 1]).None?
    ensures Step(src, st) == Emit(Captured(src, st), AloneKind(src[st.index]).value)
  {
  }

  /**
   * A lone `=`, or a backslash not followed by `n`, emits nothing: the
   * character stays in the pending text and is prefixed to the next token.
   */
  lemma StepPendingOnly(src: string, st: LexState)
    requires st.index < |src| && src[st.index] in "=\\"
    requires st.index + 1 == |src| || PairKind(src[st.index], src[st.index + 1]).None?
    ensures Step(src, st) == Captured(src, st)
  {
  }

  /**
   * Any other character emits the pending text (usually empty) as an
   * invalid token and is skipped; the character itself is in no token.
   */
  lemma StepInvalid(src: string, st: LexState)
    requires st.index < |src|
    requires var c := src[st.index];
      SingleKind(c).None? && AloneKind(c).None? && c !in "#.=\\ " && !IsWordChar(c)
    ensures Step(src, st).tokens == st.tokens + [Token(Invalid, st.pending, st.index - |st.pending|, st.index - 1)]
    ensures Step(src, st).index == st.index + 1 && Step(src, st).pending == ""
  {
  }

  /** A `#` not followed by `[` is an invalid character. */
  lemma StepLoneHash(src: string, st: LexState)
    requires st.index < |src| && src[st.index] == '#' && !At(src, st.index + 1, '[')
    ensures Step(src, st).tokens == st.tokens + [Token(Invalid, st.pending, st.index - |st.pending|, st.index - 1)]
  {
  }

  /**
   * A digit starts a number that swallows every following digit and dot,
   * so "3.5", "1.2.3" and "1..2" are each one number token.
   */
  lemma StepNumber(src: string, st: LexState)
    requires st.index < |src| && IsNumeric(src[st.index])
    ensures var r := Step(src, st);
      var n := |st.tokens|;
      |r.tokens| == n + 1 && r.tokens[..n] == st.tokens && r.tokens[n].kind == Number
      && r.tokens[n].text == st.pending + src[st.index..r.index]
      && (r.index == |src| || !IsNumberChar(src[r.index]))
      && forall i :: st.index <= i < r.index ==> IsNumberChar(src[i])
  {
  }

  /** A dot not followed by a dot starts a number made of the dot and the digits after it. */
  lemma StepDotNumber(src: string, st: LexState)
    requires st.index < |src| && src[st.index] == '.' && !At(src, st.index + 1, '.')
    ensures var r := Step(src, st);
      var n := |st.tokens|;
      |r.tokens| == n + 1 && r.tokens[..n] == st.tokens && r.tokens[n].kind == Number
      && r.tokens[n].text == st.pending + src[st.index..r.index]
      && (r.index == |src| || !IsNumeric(src[r.index]))
      && forall i :: st.index < i < r.index ==> IsNumeric(src[i])
  {
    var s1 := Captured(src, st);
    var r := CaptureDigits(src, s1);
    assert Step(src, st) == Emit(r, Number);
    assert s1.pending + src[s1.index..r.index] == st.pending + src[st.index..r.index];
  }

  /**
   * A letter starts a word of letters and digits; the word is a keyword
   * token when the table has it and an identifier otherwise.
   */
  lemma StepWord(src: string, st: LexState)
    requires st.index < |src| && IsAlphabetic(src[st.index]) && st.pending == ""
    ensures var r := Step(src, st);
      var n := |st.tokens|;
      |r.tokens| == n + 1 && r.tokens[..n] == st.tokens
      && r.tokens[n].text == src[st.index..r.index]
      && r.tokens[n].kind == Keyword(r.tokens[n].text)
      && (r.index == |src| || !IsWordChar(src[r.index]))
      && forall i :: st.index <= i < r.index ==> IsWordChar(src[i])
  {
  }

  /** The keyword table's "/n" entry is dead: a captured word never contains a slash. */
  lemma WordIsNeverSlashN(src: string, st: LexState)
    requires st.index < |src| && IsAlphabetic(src[st.index]) && st.pending == ""
    ensures Step(src, st).tokens[|st.tokens|].kind != Linebreak
  {
    StepWord(src, st);
    var r := Step(src, st);
    var w := r.tokens[|st.tokens|].text;
    assert w[0] == src[st.index];
    OnlySlashNIsLinebreak(w);
  }

  /** A lone digit before a character that cannot continue a number is a one-character number token. */
  lemma StepDigit(src: string, st: LexState)
    requires st.index < |src| && IsNumeric(src[st.index])
    requires st.index + 1 == |src| || !IsNumberChar(src[st.index + 1])
    ensures Step(src, st) == Emit(Captured(src, st), Number)
  {
    assert CaptureNumber(src, Captured(src, st)) == Captured(src, st);
  }

  /** "1+2", first pass: the digit becomes a number token. */
  lemma OnePlusTwoFirst(src: string, st: LexState)
    requires src == "1+2" && st == Init
    ensures Step(src, st) == LexState(1, "", [Token(Number, "1", 0, 0)])
  {
    StepDigit(src, st);
    assert Captured(src, st) == LexState(1, "1", []);
  }

  /** "1+2", second pass: the plus sign. */
  lemma OnePlusTwoSecond(src: string)
    requires src == "1+2"
    ensures Step(src, LexState(1, "", [Token(Number, "1", 0, 0)]))
      == LexState(2, "", [Token(Number, "1", 0, 0), Token(Plus, "+", 1, 1)])
  {
    var st := LexState(1, "", [Token(Number, "1", 0, 0)]);
    assert Captured(src, st) == LexState(2, "+", st.tokens);
    StepSingle(src, st);
  }

  /** "1+2", third pass: the last digit. */
  lemma OnePlusTwoThird(src: string)
    requires src == "1+2"
    ensures Step(src, LexState(2, "", [Token(Number, "1", 0, 0), Token(Plus, "+", 1, 1)]))
      == LexState(3, "", [Token(Number, "1", 0, 0), Token(Plus, "+", 1, 1), Token(Number, "2", 2, 2)])
  {
    var st := LexState(2, "", [Token(Number, "1", 0, 0), Token(Plus, "+", 1, 1)]);
    StepDigit(src, st);
    assert Captured(src, st) == LexState(3, "2", st.tokens);
  }

  /** The lexer on "1+2": one token per character, each spanning its own index. */
  lemma LexOnePlusTwo(src: string)
    requires src == "1+2"
    ensures Lex(src) == [Token(Number, "1", 0, 0), Token(Plus, "+", 1, 1), Token(Number, "2", 2, 2)]
  {
    var t1 := [Token(Number, "1", 0, 0)];
    var t2 := t1 + [Token(Plus, "+", 1, 1)];
    var t3 := t2 + [Token(Number, "2", 2, 2)];
    OnePlusTwoFirst(src, Init);
    OnePlusTwoSecond(src);
    OnePlusTwoThird(src);
    var states := [Init, LexState(1, "", t1), LexState(2, "", t2), LexState(3, "", t3)];
    assert Step(src, states[0]) == states[1];
    assert Step(src, states[1]) == states[2];
    assert Step(src, states[2]) == states[3];
    RunChain(src, states);
  }

  /**
   * The kind of the one-character token the character at `i` makes on its
   * own, if it makes one: a one-character operator, the first character of a
   * two-character operator without its partner, or a digit that no digit or
   * dot follows.
   */
  function OneKind(src: string, i: nat): Option<Kind>
    requires i < |src|
  {
    var c := src[i];
    if SingleKind(c).Some? then SingleKind(c)
    else if AloneKind(c).Some? && (i + 1 == |src| || PairKind(c, src[i + 1]).None?) then AloneKind(c)
    else if IsNumeric(c) && (i + 1 == |src| || !IsNumberChar(src[i + 1])) then Some(Number)
    else None
  }

  /** From `i` on, the source is made of spaces and characters that are tokens on their own. */
  predicate Plain(src: string, i: nat) {
    forall j :: i <= j < |src| ==> src[j] == ' ' || OneKind(src, j).Some?
  }

  /** The tokens of a plain source from `i` on: one per character that is not a space, spanning its own index. */
  function PlainTokens(src: string, i: nat): seq<Token>
    requires i <= |src|
    decreases |src| - i
  {
    if i == |src| then []
    else
      match OneKind(src, i)
      case None => PlainTokens(src, i + 1)
      case Some(k) => [Token(k, [src[i]], i, i)] + PlainTokens(src, i + 1)
  }

  /** With nothing pending, a character that is a token on its own becomes a token whose text is the character. */
  lemma StepOne(src: string, st: LexState)
    requires st.index < |src| && st.pending == "" && OneKind(src, st.index).Some?
    ensures Step(src, st)
      == LexState(st.index + 1, "", st.tokens + [Token(OneKind(src, st.index).value, [src[st.index]], st.index, st.index)])
  {
    var c := src[st.index];
    assert Captured(src, st).pending == [c];
    if SingleKind(c).Some? {
      StepSingle(src, st);
    } else if AloneKind(c).Some? && (st.index + 1 == |src| || PairKind(c, src[st.index + 1]).None?) {
      StepAlone(src, st);
    } else {
      StepDigit(src, st);
    }
  }

  /**
   * A plain source lexes character by character: the spaces vanish and every
   * other character is a token of its own, in source order.
   */
  lemma {:induction false} RunPlain(src: string, i: nat, ts: seq<Token>)
    requires i <= |src| && Plain(src, i)
    ensures Run(src, LexState(i, "", ts)) == LexState(|src|, "", ts + PlainTokens(src, i))
    decreases |src| - i, 1
  {
    if i < |src| {
      PlainRest(src, i);
      if OneKind(src, i).None? {
        RunPlainSpace(src, i, ts);
      } else {
        RunPlainOne(src, i, ts);
      }
    } else {
      assert PlainTokens(src, i) == [];
    }
  }

  /** `RunPlain` when the first character is a space: it is skipped. */
  lemma {:induction false} RunPlainSpace(src: string, i: nat, ts: seq<Token>)
    requires i < |src| && Plain(src, i + 1) && src[i] == ' ' && OneKind(src, i).None?
    ensures Run(src, LexState(i, "", ts)) == LexState(|src|, "", ts + PlainTokens(src, i))
    decreases |src| - i, 0
  {
    var st := LexState(i, "", ts);
    var next := LexState(i + 1, "", ts);
    StepSpace(src, st);
    assert Run(src, st) == Run(src, next);
    RunPlain(src, i + 1, ts);
    assert PlainTokens(src, i) == PlainTokens(src, i + 1);
  }

  /** `RunPlain` when the first character is a token on its own: it is emitted. */
  lemma {:induction false} RunPlainOne(src: string, i: nat, ts: seq<Token>)
    requires i < |src| && Plain(src, i + 1) && OneKind(src, i).Some?
    ensures Run(src, LexState(i, "", ts)) == LexState(|src|, "", ts + PlainTokens(src, i))
    decreases |src| - i, 0
  {
    var st := LexState(i, "", ts);
    var t := Token(OneKind(src, i).value, [src[i]], i, i);
    var next := LexState(i + 1, "", ts + [t]);
    StepOne(src, st);
    assert Run(src, st) == Run(src, next);
    RunPlain(src, i + 1, ts + [t]);
    assert PlainTokens(src, i) == [t] + PlainTokens(src, i + 1);
    assert ts + [t] + PlainTokens(src, i + 1) == ts + ([t] + PlainTokens(src, i + 1));
  }

  /** A plain source stays plain after its first character, which is a space or a token on its own. */
  lemma PlainRest(src: string, i: nat)
    requires i < |src| && Plain(src, i)
    ensures Plain(src, i + 1)
    ensures OneKind(src, i).None? ==> src[i] == ' '
  {
    assert src[i] == ' ' || OneKind(src, i).Some?;
  }

  /** "3 + 5 \n (2 - 1)" from index 7 on: the parenthesised difference. */
  lemma BlockSecondLine(src: string)
    requires src == "3 + 5 \n (2 - 1)"
    ensures PlainTokens(src, 7) == [Token(LeftParenthesis, "(", 8, 8), Token(Number, "2", 9, 9),
      Token(Minus, "-", 11, 11), Token(Number, "1", 13, 13), Token(RightParenthesis, ")", 14, 14)]
  {
    var t := [Token(RightParenthesis, ")", 14, 14)];
    assert PlainTokens(src, 14) == t;
    t := [Token(Number, "1", 13, 13)] + t;
    assert PlainTokens(src, 13) == t;
    assert PlainTokens(src, 12) == t;
    t := [Token(Minus, "-", 11, 11)] + t;
    assert PlainTokens(src, 11) == t;
    assert PlainTokens(src, 10) == t;
    t := [Token(Number, "2", 9, 9)] + t;
    assert PlainTokens(src, 9) == t;
    t := [Token(LeftParenthesis, "(", 8, 8)] + t;
    assert PlainTokens(src, 8) == t;
    assert PlainTokens(src, 7) == t;
  }

  /**
   * The lexer on "3 + 5 \n (2 - 1)": the spaces vanish, the line break is a
   * token of its own, and the texts read "3", "+", "5", "\n", "(", "2", "-",
   * "1", ")".
   */
  lemma LexBlock(src: string)
    requires src == "3 + 5 \n (2 - 1)"
    ensures Lex(src) == [Token(Number, "3", 0, 0), Token(Plus, "+", 2, 2), Token(Number, "5", 4, 4),
      Token(Linebreak, "\n", 6, 6), Token(LeftParenthesis, "(", 8, 8), Token(Number, "2", 9, 9),
      Token(Minus, "-", 11, 11), Token(Number, "1", 13, 13), Token(RightParenthesis, ")", 14, 14)]
  {
    BlockPlain(src);
    BlockTokens(src);
    RunPlain(src, 0, []);
  }

  /** "3 + 5 \n (2 - 1)" is made of spaces and characters that are tokens on their own. */
  lemma BlockPlain(src: string)
    requires src == "3 + 5 \n (2 - 1)"
    ensures Plain(src, 0)
  {
    forall j | 0 <= j < |src|
      ensures src[j] == ' ' || OneKind(src, j).Some?
    {
    }
  }

  /** The one-character tokens of "3 + 5 \n (2 - 1)", in order. */
  lemma BlockTokens(src: string)
    requires src == "3 + 5 \n (2 - 1)"
    ensures PlainTokens(src, 0) == [Token(Number, "3", 0, 0), Token(Plus, "+", 2, 2), Token(Number, "5", 4, 4),
      Token(Linebreak, "\n", 6, 6), Token(LeftParenthesis, "(", 8, 8), Token(Number, "2", 9, 9),
      Token(Minus, "-", 11, 11), Token(Number, "1", 13, 13), Token(RightParenthesis, ")", 14, 14)]
  {
    BlockSecondLine(src);
    var t := PlainTokens(src, 7);
    t := [Token(Linebreak, "\n", 6, 6)] + t;
    assert PlainTokens(src, 6) == t;
    assert PlainTokens(src, 5) == t;
    t := [Token(Number, "5", 4, 4)] + t;
    assert PlainTokens(src, 4) == t;
    assert PlainTokens(src, 3) == t;
    t := [Token(Plus, "+", 2, 2)] + t;
    assert PlainTokens(src, 2) == t;
    assert PlainTokens(src, 1) == t;
    t := [Token(Number, "3", 0, 0)] + t;
    assert PlainTokens(src, 0) == t;
  }
}
