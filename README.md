# Spreadsheet formula engine — a Dafny model

This project models the core of a small spreadsheet formula language written
in Ruby. Its pieces are:

- **Lexer.** Turns formula text into tokens, using a cursor, a pending text and a token list.
- **Parser.** A recursive-descent parser with eight precedence levels. It builds a tree of operator, primitive and flow nodes.
- **Evaluator.** A tree-walking visitor. It computes values, reads cells through the runtime, and binds variables in the runtime's hash.
- **Serializer.** A second visitor that renders an expression tree back to fully parenthesised formula text.
- **Grid and runtime.** A square of `size + 1` by `size + 1` cells, and the runtime that pairs the grid with the variable hash.

How each part is modelled follows the form of its source:

- **Pure parts are functions.** Token values, operator rules, the serializer and the meaning of a tree are datatypes and functions, with lemmas about them.
- **Mutating parts are classes.** The lexer, the parser, the evaluator, the grid, the runtime and `Block#add` are classes whose methods update fields.
  - Each such method is proved to do what a specification function says.
  - `Lexing.Lexer` moves between the states that `Lexing.Step` and `Lexing.Run` describe.
  - `Parsing.Parser` returns what the `Grammar` functions return, and leaves its cursor where they say.
  - `Evaluation.Evaluator` leaves the runtime's variables, and returns the result, that `Semantics.Eval` gives.
  - `Grids.Grid` keeps its box equal to the `Grids.Cells` snapshot functions.

Other modelling choices:

- Integers are unbounded, as Ruby's are. Floats are exact reals.
- A value the evaluator hands back is a `Values.Value`. Ruby's `nil` is `None`.
- Every `raise` becomes an `EvalError` or a `ParseError`. The properties state when each one happens.

Files:

| file | module | models |
|---|---|---|
| wrappers.dfy | Wrappers | `Option` and `Result` |
| decimal.dfy | Decimal | `Integer#to_s`, `String#to_i` on numerals |
| token.dfy | Tokens | `Token` and `Token#to_s` |
| lexer.dfy, lexer_facts.dfy | Lexing, LexerFacts | `Lexer` and what its loop guarantees |
| ast.dfy | Ast | the node classes and `traverse`'s visitor names |
| grammar.dfy, grammar_facts.dfy | Grammar, GrammarFacts | the parser's productions as functions, and precedence and block facts |
| grammar_shapes.dfy | GrammarShapes | the tree each atom, cast, call and assignment builds |
| parser.dfy | Parsing | `Parser`, as a class with a cursor |
| values.dfy | Values | evaluated values and errors |
| operators.dfy | Operators | the visitors' operator rules |
| grid.dfy, runtime.dfy | Grids, Runtimes | `Grid` and `Runtime` |
| semantics.dfy, semantics_facts.dfy | Semantics, SemanticsFacts | what evaluating a tree means, and properties of it |
| loop_facts.dfy | LoopFacts | the for-loop as a row-major fold over its rectangle |
| scenarios.dfy | Scenarios | whole programs from the test suite, from tokens to value |
| evaluator.dfy | Evaluation | `Evaluator`, as recursive methods over the runtime |
| serializer.dfy | Serialization | `Serializer` |

## Model

| member | source | states |
|---|---|---|
| Tokens.ToStringShowsFields | token.rb:11-13 | `to_s` is the kind's name, four spaces, the token text, `, [`, the start index, `, `, the end index and `]`, each at the offset the lengths before it give |
| Tokens.Layout | token.rb:11-13 | the same layout for any name, text and index numerals, with the total length |
| Decimal.NatToString | serializer.rb:9-11 | `Integer#to_s` of a natural number is a non-empty string of digits with no leading zero |
| Decimal.IntToString | serializer.rb:9-11 | `Integer#to_s` starts with a minus sign exactly for negative numbers, followed by the numeral of the magnitude |
| Decimal.NumeralOfNat | serializer.rb:9-11 | reading a rendered numeral back gives the number |
| Decimal.NatToStringInjective | serializer.rb:9-11 | different numbers render as different numerals |
| Decimal.LeadingValueOfNat | parser.rb:376-379 | `to_i` of a numeral followed by a non-digit is the numeral's value |
| Lexing.Captured | lexer.rb:23-26 | `capture` appends the current character to the pending text, moves the cursor by one, and leaves the tokens alone |
| Lexing.Emit | lexer.rb:28-32 | `emit_token` clears the pending text and leaves the cursor where it is |
| Lexing.CaptureWord | lexer.rb:160-162 | the word loop captures exactly the maximal run of letters and digits at the cursor |
| Lexing.CaptureDigits | lexer.rb:109-111 | the loop after a leading dot captures exactly the maximal run of digits |
| Lexing.CaptureNumber | lexer.rb:200-202 | the number loop captures exactly the maximal run of digits and dots |
| Lexing.Keyword | lexer.rb:163-198 | the keyword table maps a word to one of the sixteen keyword kinds, or to `:identifier` |
| Lexing.Step | lexer.rb:37-221 | one pass of the main loop moves the cursor forward and stays within the source |
| Lexing.StepOperator | lexer.rb:59-96 | the `-` to `\|` branches move the cursor forward within the source |
| Lexing.StepRest | lexer.rb:97-134 | the `^` to `>` branches move the cursor forward within the source |
| Lexing.StepLast | lexer.rb:135-220 | the `=` to invalid-character branches move the cursor forward within the source |
| Lexing.Run | lexer.rb:36-222 | the main loop stops exactly at the end of the source |
| Lexing.Lexer.constructor | lexer.rb:3-8 | a new lexer has cursor 0, no pending text and no tokens |
| Lexing.Lexer.Capture | lexer.rb:23-26 | the object's fields change exactly as `Captured` says |
| Lexing.Lexer.EmitToken | lexer.rb:28-32 | the object's fields change exactly as `Emit` says |
| Lexing.Lexer.LexOne | lexer.rb:37-221 | one pass of the `while` body performs exactly one `Step` |
| Lexing.Lexer.LexOperator | lexer.rb:59-96 | the `-` to `\|` branches perform exactly `StepOperator` |
| Lexing.Lexer.LexRest | lexer.rb:97-134 | the `^` to `>` branches perform exactly `StepRest` |
| Lexing.Lexer.LexLast | lexer.rb:135-220 | the remaining branches perform exactly `StepLast` |
| Lexing.Lexer.CaptureDigitRun | lexer.rb:109-111 | the digit loop performs exactly `CaptureDigits` |
| Lexing.Lexer.CaptureWordRun | lexer.rb:160-162 | the word loop performs exactly `CaptureWord` |
| Lexing.Lexer.CaptureNumberRun | lexer.rb:200-202 | the number loop performs exactly `CaptureNumber` |
| Lexing.Lexer.Lex | lexer.rb:34-224 | `lex` runs the loop to the end of the source, ends in the state `Run` gives, and returns the token list |
| LexerFacts.StepAdvanced | lexer.rb:37-221 | a pass either only moves the cursor, or emits exactly one token, which starts where the untokenised text starts and ends before the cursor |
| LexerFacts.StepOperatorAdvanced | lexer.rb:59-96 | the same, for the `-` to `\|` branches |
| LexerFacts.StepRestAdvanced | lexer.rb:97-134 | the same, for the `^` to `>` branches |
| LexerFacts.StepLastAdvanced | lexer.rb:135-220 | the same, for the remaining branches |
| LexerFacts.StepSpanned | lexer.rb:37-221 | one pass keeps every token inside the consumed text, in source order and with disjoint spans |
| LexerFacts.RunSpanned | lexer.rb:36-222 | the whole loop keeps that invariant |
| LexerFacts.LexSpans | lexer.rb:34-224 | every token `lex` returns lies inside the source; tokens come in source order; each token's index span is as long as its text |
| LexerFacts.OnlySlashNIsLinebreak | lexer.rb:180-181 | the keyword table yields `:linebreak` for the word `/n` and for no other word |
| LexerFacts.KeywordWords | lexer.rb:163-195 | each of the fifteen keywords maps to its own kind |
| LexerFacts.OnlyKeywordWords | lexer.rb:163-197 | a word maps to a keyword kind only when it is that keyword's word |
| LexerFacts.WordIsNeverSlashN | lexer.rb:159-198 | no text the word branch looks up is `/n`, so that table entry never fires |
| LexerFacts.StepSpace | lexer.rb:215-216 | a space only moves the cursor |
| LexerFacts.RunChain | lexer.rb:36-222 | running the loop through a chain of single passes ends in the chain's last state |
| LexerFacts.StepSingle | lexer.rb:41-58 | each one-character token character becomes a token made of just that character |
| LexerFacts.StepPair | lexer.rb:59-148 | a two-character operator is one token when its second character follows |
| LexerFacts.StepAlone | lexer.rb:59-148 | without its partner, the first character of a two-character operator is a token of its own |
| LexerFacts.StepPendingOnly | lexer.rb:135-158 | a lone `=`, or a backslash not followed by `n`, emits nothing: the character is only added to the pending text |
| LexerFacts.StepInvalid | lexer.rb:218-220 | any other character emits the pending text as an `:invalid` token and is skipped |
| LexerFacts.StepLoneHash | lexer.rb:37-40 | a `#` not followed by `[` is an invalid character |
| LexerFacts.StepNumber | lexer.rb:199-214 | a digit starts a `:number` token that takes every following digit and dot |
| LexerFacts.StepDotNumber | lexer.rb:107-112 | a dot not followed by a dot starts a `:number` made of the dot and the digits after it |
| LexerFacts.StepWord | lexer.rb:159-198 | a letter starts a word of letters and digits, emitted as its keyword kind or as an identifier |
| LexerFacts.StepDigit | lexer.rb:199-214 | a digit followed by neither a digit nor a dot is a one-character `:number` token |
| LexerFacts.LexOnePlusTwo | lexer.rb:34-224 | `1+2` lexes to a number, a plus and a number, at indices 0, 1 and 2 |
| LexerFacts.StepOne | lexer.rb:37-221 | with nothing pending, a character that is a token on its own becomes a token whose text is that character and whose span is its index |
| LexerFacts.RunPlain | lexer.rb:36-222 | a source of spaces and one-character tokens lexes character by character: spaces vanish and every other character is a token, in source order |
| LexerFacts.LexBlock | testing.rb:30-39 | `3 + 5 \n (2 - 1)` lexes to the texts `3`, `+`, `5`, the line break, `(`, `2`, `-`, `1`, `)`, with their kinds and indices |
| Ast.NewConditional | BinaryUnary.rb:124-130 | a conditional built without an else block has none, and keeps its condition and if-block |
| Ast.EvaluatorHandlesEveryNode | BinaryUnary.rb:12-14 | every visitor name `traverse` builds from a node's class is a method the evaluator defines |
| Ast.StatementList.constructor | BinaryUnary.rb:76-80 | a new block holds the statements given |
| Ast.StatementList.Add | BinaryUnary.rb:82-84 | `add` appends the statement at the end and keeps the earlier ones in order |
| Grammar.ErrorText | parser.rb:44-47 | the raised text starts with `Error: ` followed by the message, with more (the index) after it |
| Grammar.Advance | parser.rb:32-34 | `advance` moves one step unless already at the end, and never past the end |
| Grammar.Fail | parser.rb:44-47 | `error` raises with the current token's start index; at the end of the list it fails on the nil token instead |
| Grammar.Expect | parser.rb:18-26 | `expect` succeeds exactly when the current token has the kind; it then takes that one token, and otherwise raises at that token |
| Grammar.ExpectAll | parser.rb:73-89 | a run of `expect` calls takes one token per kind and stays inside the list |
| Grammar.ExpectAllMatches | parser.rb:73-89 | the run succeeds exactly when each token has the kind expected of it |
| Grammar.ExpectAllTokens | parser.rb:73-89 | on success the run returns the tokens it checked, in order |
| Grammar.Parse | parser.rb:10-12 | a successful parse yields a block |
| Grammar.SkipLinebreaks | parser.rb:53-55 | skipping stops at the first token that is not a line break, and passes only line breaks |
| Grammar.BlockFrom | parser.rb:49-71 | a block parse yields a block node and stops inside the list |
| Grammar.Statement | parser.rb:58-66 | a statement consumes at least one token |
| Grammar.ParseForLoop | parser.rb:73-101 | a for-loop consumes at least one token |
| Grammar.ForLoopBody | parser.rb:91-100 | the part after the header consumes at least one token |
| Grammar.ParseConditional | parser.rb:103-134 | a conditional consumes at least one token |
| Grammar.IfBlock | parser.rb:107-113 | the part after the condition consumes at least one token |
| Grammar.ConditionalElse | parser.rb:115-131 | the part after the if-block consumes at least one token |
| Grammar.ElseBlock | parser.rb:116-123 | the else part consumes at least one token |
| Grammar.CloseConditional | parser.rb:126-131 | closing succeeds exactly at an `end` token, and consumes it |
| Grammar.ParseAssignment | parser.rb:136-142 | an assignment consumes at least one token; the tree it builds is stated by GrammarShapes.AssignmentShape |
| Grammar.Expression | parser.rb:144-146 | an expression consumes at least one token |
| Grammar.Level | parser.rb:149-250 | each binary level consumes at least one token |
| Grammar.Operand | parser.rb:149-250 | a level's operand consumes at least one token |
| Grammar.LevelLoop | parser.rb:149-250 | a level's operator loop never moves back and stays inside the list |
| Grammar.Level6 | parser.rb:253-272 | a prefix-level expression consumes at least one token |
| Grammar.Level7 | parser.rb:275-307 | a cast-level expression consumes at least one token; the tree it builds is stated by GrammarShapes.CastShape |
| Grammar.Cast | parser.rb:276-303 | a cast's parenthesised operand consumes at least one token; the tree it builds is stated by GrammarShapes.CastShape |
| Grammar.Operands | parser.rb:323-329 | the operand pair of a bracket or call consumes at least one token; the tree it builds is stated by GrammarShapes.OperandsShape |
| Grammar.Level8 | parser.rb:310-393 | an atom consumes at least one token; the tree it builds is stated by the `GrammarShapes` lemmas |
| Grammar.Primitive | parser.rb:374-391 | a literal or variable consumes exactly one token, and fails on the nil token past the end |
| Grammar.Bracketed | parser.rb:323-344 | an `#[a, b]` or `[a, b]` consumes at least one token; the tree it builds is stated by GrammarShapes.BracketShape |
| Grammar.Statistic | parser.rb:345-372 | a statistical call consumes at least one token; the tree it builds is stated by GrammarShapes.StatisticShape |
| Grammar.StatisticCall | parser.rb:347-372 | the call after the function name consumes at least one token; the tree it builds is stated by GrammarShapes.ClosingShape |
| Grammar.CloseStatistic | parser.rb:355-369 | the closing parenthesis and the name select the node class, or raise |
| GrammarFacts.OneLevelPerOperator | parser.rb:149-250 | no operator token belongs to two binary levels |
| GrammarFacts.LevelOfOperator | parser.rb:149-250 | a token is an operator of a level exactly when that is its one binary level |
| GrammarFacts.NumberOperand | parser.rb:253-307 | a `:number` token alone is a complete prefix-level operand |
| GrammarFacts.NumberAtom | parser.rb:376-379 | a `:number` token parses to an integer literal with the token's span |
| GrammarFacts.LevelStart | parser.rb:149-163 | a level parses its operand and hands it to the level's loop |
| GrammarFacts.LoopStep | parser.rb:151-161 | an operator of the level folds the next operand into the tree on the left |
| GrammarFacts.LoopStop | parser.rb:151-161 | anything but an operator of the level ends the loop and leaves the tree as it is |
| GrammarFacts.Climb | parser.rb:149-250 | a prefix-level operand that no operator of that level or a tighter one follows is what every binary level parses |
| GrammarFacts.OperandClimb | parser.rb:149-250 | the same for a level's operand |
| GrammarFacts.Lift | parser.rb:149-250 | what a tighter level parses, a looser one parses alike when no operator in between follows |
| GrammarFacts.Single | parser.rb:149-250 | one operator of a level between two prefix-level operands gives one binary node of that level, with the operator's span |
| GrammarFacts.FoldTail | parser.rb:151-161 | a level's loop at its operator, then one operand and the end of the level, folds that operand onto the tree on the left |
| GrammarFacts.TighterRun | parser.rb:149-250 | `b hi c` with `hi` a tighter level is one operand of a looser level |
| GrammarFacts.LeftAssociative | parser.rb:149-250 | `a op1 b op2 c`, with both operators on one level and any operands of that level, groups as `(a op1 b) op2 c` |
| GrammarFacts.TighterGroupsRight | parser.rb:149-250 | `a lo b hi c`, with `hi` on a tighter level and any operands, groups as `a lo (b hi c)` |
| GrammarFacts.TighterGroupsLeft | parser.rb:149-250 | `a hi b lo c`, with any operands, groups as `(a hi b) lo c` |
| GrammarFacts.PrefixShape | parser.rb:253-272 | `!`, `-` and `~` build a Not, Negation or BitwiseNot node over the prefix-level operand after them, with the operator's span |
| GrammarFacts.PrefixBindsTighter | parser.rb:253-272 | `!`, `-` and `~` bind tighter than every binary operator: `-a op b` is `(-a) op b`, for any operands |
| GrammarFacts.BlockStops | parser.rb:49-71 | a block ends at the end of the list or just before `end` or `else`, and keeps the statements gathered before it first and in order |
| GrammarFacts.BlockStep | parser.rb:49-71 | a block that goes on parses one statement after the line breaks, then continues after it |
| GrammarFacts.StatementKinds | parser.rb:58-66 | `if` starts a conditional, `for` a loop, an identifier before `->` an assignment, and anything else an expression |
| GrammarFacts.ConditionalSteps | parser.rb:103-134 | a conditional is its condition, a line break, the if-block and the rest, in that order |
| GrammarFacts.ConditionalShape | parser.rb:103-134 | a parsed conditional starts with `if`, has a line break after its condition, and ends with the `end` it consumed |
| GrammarFacts.ElseSteps | parser.rb:115-131 | the else block is present exactly when `else` follows the if-block, `else` needs a line break after it, and the `end` is the last token consumed |
| GrammarFacts.ForHeaderShape | parser.rb:73-95 | a parsed for-loop has the header `for x in [n, n]..[n, n]`, followed by `do` or a line break |
| GrammarFacts.TakenTokens | parser.rb:18-26 | a successful run of `expect` calls returns exactly the tokens it passed over |
| GrammarFacts.BodyShape | parser.rb:91-100 | after the header come `do` or a line break, then the body, then `end`; the node keeps the header's identifier and four bound tokens |
| GrammarFacts.ForLoopSteps | parser.rb:73-101 | a parsed for-loop passed its header, and the rest is parsed from just after it |
| GrammarShapes.AssignmentShape | parser.rb:136-142 | `x -> e` is an Assignment of the identifier token to the whole expression after the arrow |
| GrammarShapes.AssignmentFails | parser.rb:136-142 | an assignment whose expression fails raises that expression's error |
| GrammarShapes.CastShape | parser.rb:275-307 | `float(e)` is an IntToFloat node and `int(e)` a FloatToInt node over the whole parenthesised expression |
| GrammarShapes.CastFails | parser.rb:276-303 | a cast keyword without `(` raises right after it, and a cast without `)` raises where the `)` should be, each with its own message |
| GrammarShapes.PrefixOverCast | parser.rb:253-307 | casts sit between the prefix operators and the atoms: `-int(e)` negates the cast of `e` |
| GrammarShapes.ParenShape | parser.rb:314-319 | `(e)` is the expression `e` itself, so parentheses group without adding a node |
| GrammarShapes.ParenFails | parser.rb:320-321 | a parenthesised expression without its `)` raises where the `)` should be |
| GrammarShapes.LinebreakShape | parser.rb:311-313 | a line break before an atom starts a whole new expression |
| GrammarShapes.BooleanLeaf | parser.rb:383-385 | `true` and `false` are Boolean leaves, true exactly when the text is `true` |
| GrammarShapes.IdentifierLeaf | parser.rb:386-388 | an identifier in an expression is a reference to the variable of that name |
| GrammarShapes.UnexpectedStart | parser.rb:389-390 | any other token that reaches the leaf production raises `Unexpected token` at its start index |
| GrammarShapes.MissingOperand | parser.rb:374-376 | an operand missing at the end of the list fails on the nil token |
| GrammarShapes.OperandsShape | parser.rb:323-329 | the two operands of a bracket or call are two expressions, with or without a comma between them |
| GrammarShapes.BracketShape | parser.rb:323-344 | `#[a, b]` is an RValue node and `[a, b]` an LValue node over the two operands; without `]` each raises its own message |
| GrammarShapes.BracketOfNumbers | parser.rb:323-344 | `#[m, n]` and `[m, n]` with two numbers give the node over the two Integer leaves and take five tokens |
| GrammarShapes.NumberExpression | parser.rb:144-250 | a number that no binary operator follows is a whole expression |
| GrammarShapes.StatisticShape | parser.rb:345-352 | `sum(a, b)`, `mean(a, b)`, `min(a, b)` and `max(a, b)` read the keyword, the `(` and both operands, and close as `ClosingShape` says |
| GrammarShapes.ClosingShape | parser.rb:353-369 | at `)` the keyword's text selects the Sum, Mean, Min or Max node over the two operands; an unknown name raises after the `)`; a missing `)` raises where it should be |
| GrammarShapes.StatisticFails | parser.rb:370-371 | a statistical keyword not followed by `(` raises right after it |
| Parsing.Parser.constructor | parser.rb:4-8 | a new parser has its cursor on the first token |
| Parsing.Parser.Advance | parser.rb:32-34 | the cursor moves as `Grammar.Advance` says |
| Parsing.Parser.Expect | parser.rb:18-26 | returns the token or the error of `Grammar.Expect`, and moves the cursor past the token only on success |
| Parsing.Parser.ExpectEach | parser.rb:73-89 | the run of `expect` calls returns what `Grammar.ExpectAll` returns, and leaves the cursor after it |
| Parsing.Parser.Parse | parser.rb:10-12 | `parse` returns the top-level block that `Grammar.BlockFrom` gives from the cursor, or its error |
| Parsing.Parser.Block | parser.rb:49-71 | `block` agrees with `Grammar.BlockFrom` on the node, the error and the final cursor |
| Parsing.Parser.SkipLinebreaks | parser.rb:53-55 | the cursor ends where `Grammar.SkipLinebreaks` says |
| Parsing.Parser.Statement | parser.rb:58-66 | agrees with `Grammar.Statement` |
| Parsing.Parser.ParseForLoop | parser.rb:73-101 | agrees with `Grammar.ParseForLoop` |
| Parsing.Parser.ParseConditional | parser.rb:103-134 | agrees with `Grammar.ParseConditional` |
| Parsing.Parser.IfBlock | parser.rb:107-113 | agrees with `Grammar.IfBlock` |
| Parsing.Parser.ConditionalElse | parser.rb:115-131 | agrees with `Grammar.ConditionalElse` |
| Parsing.Parser.ElseBlock | parser.rb:116-123 | agrees with `Grammar.ElseBlock` |
| Parsing.Parser.CloseConditional | parser.rb:126-131 | agrees with `Grammar.CloseConditional` |
| Parsing.Parser.ParseAssignment | parser.rb:136-142 | agrees with `Grammar.ParseAssignment` |
| Parsing.Parser.Expression | parser.rb:144-146 | agrees with `Grammar.Expression` |
| Parsing.Parser.Level | parser.rb:149-250 | each of `level1` to `level5` agrees with `Grammar.Level` |
| Parsing.Parser.Operand | parser.rb:149-250 | a level's operand agrees with `Grammar.Operand` |
| Parsing.Parser.Level6 | parser.rb:253-272 | agrees with `Grammar.Level6` |
| Parsing.Parser.Level7 | parser.rb:275-307 | agrees with `Grammar.Level7` |
| Parsing.Parser.Cast | parser.rb:276-303 | agrees with `Grammar.Cast` |
| Parsing.Parser.Level8 | parser.rb:310-393 | agrees with `Grammar.Level8` |
| Parsing.Parser.Operands | parser.rb:323-329 | agrees with `Grammar.Operands` |
| Parsing.Parser.Bracketed | parser.rb:323-344 | agrees with `Grammar.Bracketed` |
| Parsing.Parser.Statistic | parser.rb:345-372 | agrees with `Grammar.Statistic` |
| Parsing.Parser.Primitive | parser.rb:374-391 | agrees with `Grammar.Primitive` |
| Operators.FloorMod | evaluator.rb:106 | Integer `%` is the remainder of floored division: it has the divisor's sign and is smaller than the divisor in size |
| Operators.Truncate | evaluator.rb:278 | `Float#to_i` rounds towards zero |
| Operators.XorAllOnes | evaluator.rb:246 | `~x` is `x ^ -1`, which is `-x - 1` |
| Operators.AndPlusOr | evaluator.rb:214-225 | `(x & y) + (x \| y) == x + y` on two's-complement integers |
| Operators.XorPlusAnd | evaluator.rb:236 | `(x ^ y) + 2 * (x & y) == x + y` |
| Operators.ShiftRoundTrip | evaluator.rb:257-268 | a right shift by n undoes a left shift by n |
| Operators.PowAsReal | evaluator.rb:121 | Integer powers agree with the same powers taken as reals |
| Operators.Pow2IsPow | evaluator.rb:257 | the shift factor `2 ** n` is the power of two |
| Operators.RealPowNonZero | evaluator.rb:121 | a non-zero base has non-zero powers |
| Operators.Add | evaluator.rb:35-48 | defined exactly for two numbers; the sum is an Integer exactly when both are, and otherwise type mismatch |
| Operators.Subtract | evaluator.rb:50-63 | the same, for the difference |
| Operators.Multiply | evaluator.rb:65-78 | the same, for the product |
| Operators.Divide | evaluator.rb:80-93 | a non-number raises; otherwise the quotient is a Float that times the divisor gives the dividend; a zero divisor is unmodelled |
| Operators.Modulo | evaluator.rb:95-108 | a non-number raises; Integer % zero raises ZeroDivisionError; otherwise the result is the floored remainder |
| Operators.Power | evaluator.rb:110-123 | a non-number raises; otherwise the power is an Integer exactly when the base is, and its value is the real power; a negative exponent gives the reciprocal; `0 ** -n` raises ZeroDivisionError |
| Operators.Negate | evaluator.rb:125-134 | keeps the operand's kind and flips its sign; a non-number raises |
| Operators.Equals | evaluator.rb:138-147 | operands of different classes raise; nil and addresses have no `.value`; otherwise the answer is whether they are equal |
| Operators.NotEquals | evaluator.rb:149-158 | the same checks as `==`, with the opposite answer |
| Operators.Compare | evaluator.rb:160-202 | the four comparisons are defined exactly for two numbers; otherwise they raise; the answer is whether `<`, `<=`, `>` or `>=` holds between the numbers the operands stand for |
| Operators.CompareExamples | testing.rb:289-302 | `1 < 1.5` and `2.0 <= 2` hold and `2.0 > 2` does not; `10 == 5`, `10 != 5`, `10 < 5` and `10 > 5` give false, true, false and true |
| Operators.ComparisonDuals | evaluator.rb:160-202 | `a > b` is `b < a`, `a >= b` is `b <= a`, and `a <= b` is the negation of `a > b` |
| Operators.BitwiseOp | evaluator.rb:206-237 | `&`, `\|` and `^` are defined exactly for two Integers; the result is the two's-complement `Bitwise` of the operands (about which `AndPlusOr`, `XorPlusAnd` and `XorAllOnes` are proved), its lowest bit combines the operands' lowest bits and its sign combines their signs |
| Operators.BitwiseSign | evaluator.rb:206-237 | the sign of `x & y`, `x \| y`, `x ^ y` is the operator applied to the operands' signs, for all Integers |
| Operators.Complement | evaluator.rb:239-247 | `~` is defined exactly for an Integer and is `x ^ -1` |
| Operators.Shift | evaluator.rb:249-269 | `<<` and `>>` are defined exactly for two Integers; the result is `ShiftLeft`/`ShiftRight` of them (the functions `ShiftRoundTrip` and `ShiftDirections` are about): shifting towards the left multiplies by `2 ** |n|`, shifting towards the right is the floored quotient by `2 ** |n|` |
| Operators.ShiftDirections | evaluator.rb:249-269 | a left shift by n is a right shift by -n, and the other way round |
| Operators.BitwiseExamples | testing.rb:304-350 | `10&4 = 0`, `10\|4 = 14`, `10^4 = 14`, `8<<2 = 32`, `8>>2 = 2` |
| Operators.FloatToInt | evaluator.rb:273-279 | only a Float converts; the result is an Integer of the same sign whose size is within 1 below the Float's, that is `to_i` truncating toward zero |
| Operators.IntToFloat | evaluator.rb:281-287 | only an Integer converts, to the same number |
| Operators.CastRoundTrip | evaluator.rb:273-287 | `int(float(n))` gives `n` back |
| Operators.Not | evaluator.rb:441-449 | only a Boolean is negated; anything else raises |
| Grids.Wrap | runtime.rb:9-11 | the index rule of Ruby's `Array#[]` for an index that fits a machine long: a negative index counts back from the end, and anything else out of range finds nothing |
| Grids.CellAt | runtime.rb:9-11 | reading a cell raises exactly when the row is out of range, or the column is out of range and no machine long (RangeError); any other column out of range reads nil; in range gives the cell |
| Grids.NegativeIndicesWrap | runtime.rb:9-11 | negative coordinates read the cell counted back from the last row and column |
| Grids.Updated | grid.rb:27-33 | an update keeps the grid's shape |
| Grids.ReadAfterUpdate | grid.rb:27-33 | reading an updated cell gives the value stored |
| Grids.ReadOtherAfterUpdate | grid.rb:27-33 | an update changes no other cell, including one reached by negative coordinates |
| Grids.UpdateOutOfRange | grid.rb:27-33 | an update outside `0..size` changes nothing |
| Grids.Addresses | grid.rb:10-16 | the grid after `setup_grid` has `size + 1` rows of `size + 1` cells |
| Grids.AddressesReadBack | grid.rb:10-16 | after `setup_grid`, the cell at `[i, j]` holds the address `(i, j)` |
| Grids.Grid.constructor | grid.rb:4-8 | a new grid is a box of `size + 1` by `size + 1` empty cells |
| Grids.Grid.SetupGrid | grid.rb:10-16 | the box afterwards holds every cell's own address |
| Grids.Grid.UpdateCell | grid.rb:27-33 | the box afterwards is the old one with that one cell replaced when both indices lie in `0..size`, and unchanged otherwise |
| Runtimes.Runtime.constructor | runtime.rb:4-7 | a new runtime has the grid and no variables |
| Runtimes.Runtime.GetCellValue | runtime.rb:9-11 | returns what `Grids.CellAt` reads from the grid's box, including its RangeError for a column that is no machine long |
| Runtimes.Runtime.Add | runtime.rb:13-15 | binds the name, replacing an earlier binding, and changes no other binding |
| Runtimes.Runtime.AddBinds | runtime.rb:13-15 | after `add`, the name holds the value and every other name holds what it held |
| Semantics.MakeAddress | evaluator.rb:469-477 | an L-value is an address exactly when both coordinates are Integers |
| Semantics.Payload | evaluator.rb:454-455 | `.value` exists exactly for a primitive; nil and addresses raise |
| Semantics.NumericCell | evaluator.rb:461-466 | an R-value's cell must hold a number; a failed read passes its error on |
| Semantics.Corner | evaluator.rb:295-296 | a statistic's corner must be an L-value address, and gives its coordinates |
| Semantics.RawValue | BinaryUnary.rb:46-51 | `.value` exists exactly on the unary operators and the literals: a literal's payload, or a unary operator's operand node |
| Semantics.SumCorner | evaluator.rb:375-379 | `sum` reads `.left.value` and `.right.value` of each corner unevaluated; it raises exactly when a corner is not a binary node, or a child has no `.value` |
| Semantics.SumRange | evaluator.rb:383-384 | `for x in lo..hi` walks Integers from an Integer start up to an Integer end, or up to the floor of a Float end; two Strings are not modelled; every other pair raises, even when empty |
| Semantics.SumNumbers | evaluator.rb:381-392 | bad row ends raise; backward rows collect nothing without building the column range; numbers are collected only when both ranges are walkable |
| Semantics.Kept | evaluator.rb:303-307 | a statistic keeps a cell's value exactly when it is a number |
| Semantics.MaxIndex | evaluator.rb:315 | `values.max` is the first of the greatest values |
| Semantics.MinIndex | evaluator.rb:343 | `values.min` is the first of the least values |
| Semantics.Sum | evaluator.rb:399 | `values.sum` is the total, and an Integer exactly when every value is one |
| Semantics.Aggregate | evaluator.rb:311-372 | with no numbers, `max`, `min` and `sum` raise and `mean` is 0.0; otherwise every statistic answers |
| Semantics.LoopRange | evaluator.rb:519-520 | a range is modelled exactly when its start is a numeral without leading zeros and its end is all digits, and it then runs from the start's value to the end's |
| Semantics.Eval | evaluator.rb:494-502 | `traverse` sends each node to its visitor; a reference answers its binding and binds nothing, and raises exactly when the name is unbound |
| Semantics.EvalUnary | evaluator.rb:125-134 | a unary visitor evaluates its operand first, passes the operand's error on unchanged, and binds nothing itself |
| Semantics.EvalBinary | BinaryUnary.rb:12-14 | sends a binary node to its visitor: the eager operators, `and`/`or`, the R-value read, `sum` and the other statistics; it has no contract of its own |
| Semantics.EvalOperands | evaluator.rb:35-48 | the left operand is evaluated first; when it raises, the right one is never evaluated and the error passes on unchanged |
| Semantics.EvalLogic | evaluator.rb:405-439 | `and` and `or` answer a Boolean whenever they answer; `AndShortCircuits`, `OrShortCircuits` and `LogicAnswersWithRight` state which one |
| Semantics.EvalRValue | evaluator.rb:453-467 | a successful `#[row, col]` read answers a number |
| Semantics.EvalStatistic | evaluator.rb:291-373 | `max`, `min` and `mean` answer a number whenever they answer, and `mean` a Float |
| Semantics.EvalSum | evaluator.rb:375-401 | `sum` binds nothing and answers a number whenever it answers; a corner without `.left`/`.right.value` raises; collecting nothing raises "No numeric values" |
| Semantics.EvalStatements | evaluator.rb:481-486 | the statements in order, each in the variables the previous one left, answering the last value; it has no contract of its own, and `EmptyBlockIsNil` and `PureStatementsKeepVariables` state its properties |
| Semantics.EvalAssignment | evaluator.rb:488-492 | an assignment answers its statement's result; `AssignmentBinds` states the binding |
| Semantics.EvalConditional | evaluator.rb:504-516 | a condition that is no Boolean raises, after the condition's own bindings |
| Semantics.EvalForLoop | evaluator.rb:518-528 | a row range outside the model raises `Unmodelled`; a loop whose rows or columns run backwards answers nil and binds nothing |
| Semantics.ForRows | evaluator.rb:519-527 | with an empty column range no row runs the body: the last value and the variables stay |
| Semantics.ForCols | evaluator.rb:520-525 | a cell that cannot be read raises before the body runs and before the iterator is bound |
| Semantics.RowNumbers | evaluator.rb:301-308 | at most one number per column; the scan fails only with a cell read's error, never over an empty range |
| Semantics.RectNumbers | evaluator.rb:300-309 | at most one number per cell of the rectangle; the scan fails only with a cell read's error, never over an empty rectangle |
| SemanticsFacts.RowErrorPersists | evaluator.rb:300-309 | once reading a row fails, reading more of its columns fails the same way |
| SemanticsFacts.RectErrorPersists | evaluator.rb:300-309 | once the scan fails, scanning more rows fails the same way |
| SemanticsFacts.RowInsideGrid | evaluator.rb:300-309 | a row inside the grid reads without error and keeps only numbers, at most one per column |
| SemanticsFacts.RowOutsideGrid | runtime.rb:9-11 | a row outside the grid fails as soon as a column is read |
| SemanticsFacts.MaxMinAreFirstExtremes | evaluator.rb:315-343 | `max` is the first of the greatest collected numbers and `min` the first of the least |
| SemanticsFacts.TotalBounds | evaluator.rb:371 | the total lies between the count times the least bound and the count times the greatest |
| SemanticsFacts.MeanBetweenMinAndMax | evaluator.rb:367-372 | `mean` lies between `min` and `max` |
| SemanticsFacts.SumKinds | evaluator.rb:395-400 | `sum` answers the total, as an Integer exactly when every number is one |
| SemanticsFacts.AndShortCircuits | evaluator.rb:405-413 | `a and b` with a false `a` never evaluates `b` |
| SemanticsFacts.OrShortCircuits | evaluator.rb:423-431 | `a or b` with a true `a` never evaluates `b` |
| SemanticsFacts.LogicAnswersWithRight | evaluator.rb:405-439 | otherwise `and` and `or` answer with the right operand, which must be a Boolean too |
| SemanticsFacts.FalseConditionWithoutElse | evaluator.rb:504-516 | a false condition with no else block gives nil and binds nothing more |
| SemanticsFacts.EmptyBlockIsNil | evaluator.rb:481-486 | a block with no statements evaluates to nil |
| SemanticsFacts.AssignmentBinds | evaluator.rb:488-492 | an assignment answers its value, binds its variable to it, and binds nothing else; when the statement raises, the assignment gives the statement's outcome unchanged (same error, same variables) |
| SemanticsFacts.RawLiteralIsItsValue | BinaryUnary.rb:46-51 | a literal's `.value` read from the tree is what evaluating the literal gives |
| SemanticsFacts.SumOfIntegerCorners | evaluator.rb:375-400 | `sum([a, b], [c, d])` over Integer literals scans the rectangle as the statistics do and aggregates the numbers |
| SemanticsFacts.SumWithEmptyRowsIgnoresColumns | evaluator.rb:378-395 | with backward rows, any column corners that have a `.value` give "No numeric values" |
| SemanticsFacts.SumNegatedColumnExample | evaluator.rb:378-395 | `sum([2, -1], [1, 3])` raises "No numeric values" |
| SemanticsFacts.SumWithRowsNeedsIntegerColumns | evaluator.rb:383-385 | once rows are walked, a column start that is no Integer raises (two Strings aside) |
| SemanticsFacts.BackwardLoopIsNil | evaluator.rb:518-528 | a for-loop whose rows run backwards never runs its body, gives nil and binds nothing |
| LoopFacts.CoordsRowMajor | evaluator.rb:519-520 | the rectangle's coordinates are listed in row-major order: the `k`-th is row `k / w`, column `k % w` from the corner, for width `w` |
| LoopFacts.StepsAppend | evaluator.rb:518-528 | running the body over two lists of cells is running it over the first and then, unless it raised, over the second |
| LoopFacts.ColumnsAreSteps | evaluator.rb:520-525 | the inner loop runs the body once per column of the row, in order |
| LoopFacts.RowsAreSteps | evaluator.rb:519-526 | the outer loop runs the body once per cell of the rectangle, in row-major order |
| LoopFacts.ForLoopIsFold | evaluator.rb:518-528 | a for-loop binds the iterator to each cell of the inclusive rectangle in row-major order, runs the body each time, and answers the last body value, or nil for an empty rectangle |
| LoopFacts.OneCellLoop | evaluator.rb:518-528 | a one-cell loop is the body run once with the iterator bound to that cell |
| LoopFacts.StepsCons | evaluator.rb:521-524 | one pass reads the cell, binds the iterator to it and runs the body; when the body answers, the rest of the loop continues from its bindings with its value as the last |
| LoopFacts.CountStep | testing.rb:165 | the body `count -> count + value` adds the cell to `count` |
| LoopFacts.CountingLoop | testing.rb:161-174 | `count -> 0` and a loop adding row 0's cells 1, 2 and 2 to `count` gives 5 and leaves `count` bound to 5 |
| SemanticsFacts.PureNodeKeepsVariables | evaluator.rb:488-492 | only assignments and for-loops bind: any other tree leaves the variables as they were |
| SemanticsFacts.OperandsKeepVariables | evaluator.rb:35-48 | an operator node whose operands keep the variables keeps them too |
| SemanticsFacts.PureStatementsKeepVariables | evaluator.rb:481-486 | a block of such statements keeps the variables |
| Evaluation.Evaluator.constructor | evaluator.rb:8-10 | the evaluator keeps the grid it is given |
| Evaluation.Evaluator.Traverse | BinaryUnary.rb:12-14 | `traverse` returns the result `Semantics.Eval` gives, and leaves the variables as it says, including after a raise |
| Evaluation.Evaluator.VisitUnary | evaluator.rb:125-134 | the unary visitors agree with `Semantics.EvalUnary` |
| Evaluation.Evaluator.VisitBinary | BinaryUnary.rb:12-14 | the binary visitors agree with `Semantics.EvalBinary` |
| Evaluation.Evaluator.VisitOperands | evaluator.rb:35-48 | the arithmetic, relational, bitwise and L-value visitors agree with `Semantics.EvalOperands` |
| Evaluation.Evaluator.VisitLogic | evaluator.rb:405-439 | `visit_and` and `visit_or` agree with `Semantics.EvalLogic` |
| Evaluation.Evaluator.VisitRValue | evaluator.rb:453-467 | agrees with `Semantics.EvalRValue` |
| Evaluation.Evaluator.VisitStatistic | evaluator.rb:291-373 | `max`, `min` and `mean` agree with `Semantics.EvalStatistic` |
| Evaluation.Evaluator.VisitSum | evaluator.rb:375-401 | agrees with `Semantics.EvalSum` and binds nothing |
| Evaluation.Evaluator.CollectNumbers | evaluator.rb:300-309 | the nested scan collects the numbers `Semantics.RectNumbers` gives, row by row, or its error |
| Evaluation.Evaluator.CollectRow | evaluator.rb:301-308 | the inner scan collects one row's numbers, in column order |
| Evaluation.Evaluator.VisitBlock | evaluator.rb:481-486 | agrees with `Semantics.EvalStatements` from the first statement |
| Evaluation.Evaluator.VisitAssignment | evaluator.rb:488-492 | agrees with `Semantics.EvalAssignment` |
| Evaluation.Evaluator.VisitConditional | evaluator.rb:504-516 | agrees with `Semantics.EvalConditional` |
| Evaluation.Evaluator.VisitForLoop | evaluator.rb:518-528 | agrees with `Semantics.EvalForLoop` |
| Evaluation.Evaluator.RunRow | evaluator.rb:520-525 | the inner loop agrees with `Semantics.ForCols` |
| Serialization.Render | serializer.rb:9-200 | a rendering exists only when the node's `visit_*` method is among the serializer's and its class is one the serializer renders; `SerializeOkIffExpression` and `AsWrittenFailsOnlyOnMisnamed` state exactly when it succeeds |
| Serialization.SerializeAsWritten | serializer.rb:9-200 | the serializer as its methods are spelled renders a node only when that spelling holds the name `traverse` builds |
| Serialization.Serialize | BinaryUnary.rb:12-14 | the corrected serializer renders a node only when its class is an expression class `traverse` can reach |
| Serialization.ExpressionVisitorNames | BinaryUnary.rb:12-14 | `traverse` finds a method exactly for the expression node classes in a serializer whose methods are named as `traverse` names them |
| Serialization.SerializerMethodNames | serializer.rb:9-200 | in the serializer as written, it finds one exactly for the expression classes other than the bitwise operators, `<=` and `>=` |
| Serialization.BinaryMethodNames | serializer.rb:30-154 | the same, for the binary node classes |
| Serialization.UnaryMethodNames | serializer.rb:157-175 | the same, for the unary node classes |
| Serialization.StatementsHaveNoMethod | serializer.rb:1-201 | blocks, assignments, references, conditionals and for-loops have no serializer method |
| Serialization.SerializeOkIffExpression | serializer.rb:9-200 | the serializer renders a tree exactly when it is made of expression nodes only |
| Serialization.AsWrittenFailsOnlyOnMisnamed | serializer.rb:66-163 | the serializer as written renders exactly the expression trees with no misnamed node, and then renders them the same way |
| Serialization.ShiftNotRenderedAsWritten | serializer.rb:84-88 | `(1 << 3) + 1` raises in the serializer as written and renders as `((1 << 3) + 1)` once corrected |
| Serialization.NestedAdditionExample | testing.rb:352-360 | `2 + (1 + 2)` renders as `(2 + (1 + 2))` |
| Serialization.ModuloExample | testing.rb:517-532 | the tree of `(7 * 4 + 3) % 12` renders as `(((7 * 4) + 3) % 12)` |
| Serialization.CellReadExample | testing.rb:534-553 | `#[1, 1] * -#[2, 1]` renders as `(#[1, 1] * -#[2, 1])` |
| Serialization.SumExample | serializer.rb:184-188 | a sum over `[1, 2]` and `[5, 3]` renders as `sum([1, 2], [5, 3])` |
| Serialization.ParenthesesBalance | serializer.rb:30-175 | in a tree without string or float literals, the rendering has as many closing parentheses as opening ones |
| Scenarios.ParenParse | testing.rb:731-742 | any tokens with the kinds of `(5 + 2) * 3 % 4` parse to `((5 + 2) * 3) % 4`: the group is one operand and `*`, `%` fold from the left |
| Scenarios.OneExpression | parser.rb:10-71 | a token list that is one expression read to its end is a program of that one statement, when its first token starts no other kind of statement |
| Scenarios.ParenProgram | testing.rb:731-742 | the whole program `(5 + 2) * 3 % 4` is a block of that one expression |
| Scenarios.ParenTokensTree | testing.rb:732-736 | the tokens of `(5 + 2) * 3 % 4` have those kinds, and their digits read as 5, 2, 3 and 4 |
| Scenarios.ParenValue | testing.rb:738-741 | the tree evaluates to Ruby's `(5 + 2) * 3 % 4`, which is 1, and binds nothing |
| Scenarios.NegativeParse | testing.rb:404-415 | `-1 + 2` parses as `(-1) + 2` |
| Scenarios.NegativeValue | testing.rb:404-415 | `(-1) + 2` evaluates to 1 |
| Scenarios.IntegerOperands | evaluator.rb:35-123 | an arithmetic node over two Integer leaves gives the operator's rule applied to the two Integers and binds nothing |
| Scenarios.TenPlusFive | testing.rb:282 | `10 + 5` is 15 |
| Scenarios.TenMinusFive | testing.rb:283 | `10 - 5` is 5 |
| Scenarios.TenTimesFive | testing.rb:284 | `10 * 5` is 50 |
| Scenarios.TenOverFive | testing.rb:285 | `10 / 5` is the Float 2.0 |
| Scenarios.TenToTheFifth | testing.rb:286 | `10 ** 5` is 100000 |

## Left out

- driver.rb (the interactive front end) and testing.rb are not part of this model. The tests serve only as the source of the example lemmas.
- `Grid#display_box` and `Grid#return_box` (grid.rb:18-25, 36-45) only print or concatenate text, and are not modelled. The console message of an out-of-range `update_cell` (grid.rb:31) is not modelled either; the model keeps only the fact that the box is left alone.
- Floats are exact reals. The model does not capture rounding, and it does not capture Infinity or NaN.
- Results that exact arithmetic cannot represent are `Err(Unmodelled)`:
  - division by zero, which gives Infinity or NaN in Ruby;
  - `%` with a Float operand, which Ruby wraps as an IntegerPrimitive;
  - `**` with a Float exponent;
  - `**` of a non-zero Integer to a negative power, which is a Rational in Ruby (`0 ** -n` raises ZeroDivisionError, and the model raises `ZeroDivision` there);
  - `**` of 0.0 to a negative power.
- `Float#to_s` is the parameter `floatText` of `Serialization.Serialize`, because Ruby's shortest-round-trip float printing is not modelled.
- For-loop bounds are token texts, and Ruby steps through them as a string range.
  - LoopRange: only ranges whose start is a numeral without leading zeros and whose end is all digits are modelled; they run from the start's value to the end's.
  - Ranges of two all-digit ends whose start has a leading zero also step numerically in Ruby, each number padded to the start's width. `Integer(...)` (evaluator.rb:521) then reads `"01"` as octal and rejects `"08"`. The model gives `Err(Unmodelled)` for them.
  - Any other range steps by `String#succ`, which is not modelled, and also gives `Err(Unmodelled)`.
- Semantics.SumRange: a `sum` range between two String literals steps by `String#succ`, which is not modelled, and gives `Err(Unmodelled)`.
- Cell addresses that `setup_grid` stores hold raw Integers. They are the separate value `GridAddr`, which the statistics cannot read back, as in Ruby.
- `String#to_i` is modelled only as the value of the leading digit run. That is every text the lexer puts in a `:number` token.
- The lexer's second loop in the number branch (lexer.rb:203-213) can never run, because the first loop stops where it would start. It is left out.
- The parser's `:float` branch in `level8` (parser.rb:380-382) can never run, because `level7` takes every `:float` token first. It is left out.
- The `/n` entry of the keyword table is kept, and `LexerFacts.WordIsNeverSlashN` proves that it never fires.
- The serializer's `grid` field (serializer.rb:4-6) is never read, so it is left out. The serializer here is the pure function `Serialization.Serialize`.
- Exceptions raised by Ruby itself are one error, `HostError`. Examples: a method called on nil or on an address, nil indexed in `get_cell_value`, and the RangeError of `Array#[]` for an index that is no machine long (outside `-2**63 .. 2**63 - 1`, `Grids.FitsLong`). Their messages are not modelled.
- `raise` messages of the evaluator are not modelled: every type check raises `TypeMismatch`.
- `visit_reference` prints the variable hash (`p runtime.variables`, evaluator.rb:498) before it raises on an unbound name. The model keeps the raise and drops the printed output.
- Tokens.ToStringShowsFields: does not show that the kind name determines the kind, because proving the 48 symbol names pairwise distinct is beyond the solver budget.
- Lexing.Keyword: its own contract states only the kinds the table can give. The full table is stated by `LexerFacts.KeywordWords` and `LexerFacts.OnlyKeywordWords`.
- Grammar.Statement: like the other `Grammar` production functions, its own contract states only that it consumes input. What it parses is its definition, and the parser methods are proved to agree with that definition. The grammar's shape is stated by the `GrammarFacts` and `GrammarShapes` lemmas.
- Grammar.ParseAssignment: its own contract states only that it consumes input; the Assignment node it builds is stated by `GrammarShapes.AssignmentShape`.
- Grammar.Level7: its own contract states only that it consumes input; the cast nodes and their place between prefix operators and atoms are stated by `GrammarShapes.CastShape`, `GrammarShapes.CastLevel` and `GrammarShapes.PrefixOverCast`.
- Grammar.Cast: its own contract states only that it consumes input; the cast node is stated by `GrammarShapes.CastShape` and its errors by `GrammarShapes.CastFails`.
- Grammar.Operands: its own contract states only that it consumes input; the pair it returns is stated by `GrammarShapes.OperandsShape`.
- Grammar.Level8: its own contract states only that it consumes input; what each kind of atom parses to is stated by the `GrammarShapes` lemmas (`ParenShape`, `LinebreakShape`, `BracketShape`, `StatisticShape`, `BooleanLeaf`, `IdentifierLeaf`, `UnexpectedStart`) and by `GrammarFacts.NumberAtom`.
- Grammar.Bracketed: its own contract states only that it consumes input; the RValue and LValue nodes are stated by `GrammarShapes.BracketShape`.
- Grammar.Statistic: its own contract states only that it consumes input; the statistic nodes are stated by `GrammarShapes.StatisticShape` and `GrammarShapes.ClosingShape`.
- Grammar.StatisticCall: its own contract states only that it consumes input; the node it builds is stated by `GrammarShapes.OpenStatistic` and `GrammarShapes.ClosingShape`.
- Semantics.EvalBinary: only dispatches, and has no contract of its own; each visitor it reaches has its row above.
- Semantics.EvalStatements: has no contract of its own; `SemanticsFacts.EmptyBlockIsNil`, `SemanticsFacts.PureStatementsKeepVariables` and `Evaluation.Evaluator.VisitBlock` state what it does.
- Whether a raised parse error's index is the start index of the offending token is stated per helper (`Grammar.Fail`, `Grammar.Expect`), not for the whole parser.

## Findings

| source | as written | input that shows it | evidently intended | confidence | as-written member | corrected member |
|---|---|---|---|---|---|---|
| serializer.rb:84-88 | the serializer names its bitwise visitors `visit_bitwise_and`, `visit_bitwise_or`, `visit_bitwise_xor`, `visit_bitwise_leftshift`, `visit_bitwise_rightshift` and `visit_bitwise_not`, and names the comparisons `visit_lessthanequals` and `visit_morethanequals`; but `traverse` (BinaryUnary.rb:13) calls `visit_bitwiseleftshift`, `visit_lessthanorequal` and so on, so any such node reached through `traverse` raises NoMethodError | the tree of `(1 << 3) + 1` | every expression node renders, whatever operator it holds | high (not executed) | Serialization.ShiftNotRenderedAsWritten | Serialization.SerializeOkIffExpression |
