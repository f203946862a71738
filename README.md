# rscc in Dafny

A model of the rscc interpreter pipeline and proofs about it. rscc reads a
program in a tiny expression language and runs it in four stages:

1. A character cursor (`IStream`) tracks the position, line and column.
2. A lexer with a one-token lookahead slot turns the characters into
   `num`, `str`, `kw`, `let`, `punc` and `op` tokens.
3. A recursive-descent parser with precedence climbing builds the syntax
   tree. It handles `if cond expr [else expr]`, `loop`, `fun`, `stuff`,
   `unstuff`, blocks, calls and binary operators.
4. An evaluator runs the tree against a chain of scopes (`Env`). The root
   scope holds the built-ins `print`, `exp` and `fact`.

Each stage has two parts:

- A pure specification function over values. The lexer, parser and
  evaluator thread their state, so these functions take the cursor
  position, the lookahead slot and the store of scopes as parameters.
- An imperative mirror with the source's mutable state. These are the
  classes `CharStream.Stream`, `Lexing.TokenStream`, `ParsingImpl.Parser`,
  `ScopeObjects.Scopes` and `Interpreting.Interpreter`. Each method's
  postcondition says its result and new state are what the specification
  function gives from the old state.

Properties are proved as lemmas about the specification functions.

Modules, in pipeline order:

| module | what it holds |
|---|---|
| `Common` | `Option`, `Result` and the error kinds |
| `CharStream` | the character cursor |
| `Lexing`, `LexingProperties` | the token rules and what they promise |
| `Parsing`, `ParsingProperties`, `ParsingImpl` | the parser |
| `Values`, `Environment`, `ScopeObjects`, `EnvironmentProperties` | values, bindings and scopes |
| `Operators`, `OperatorProperties` | `apply_op` |
| `Builtins` | the `fact` loop |
| `Evaluation`, `EvaluationProperties`, `Interpreting` | `evaluate` and `create_fun` |

Scopes form one store: a sequence of frames. Each frame holds its own
bindings and the index of its parent. A parent always has a smaller index
than its child, so every chain of scopes ends at the root. A closure
records the index of the frame it was created in, so closures share scopes
the way JavaScript closures share `Env` objects. A binding is a pair: the
primary value, and the optional `stuff` attached to it.

`evaluate` can recurse without end: loops run by recursion, and a program
may call itself forever. The model therefore takes a `fuel` parameter that
bounds the depth of nested evaluations. Running out models the host's
call-stack exhaustion.

Where the code and its documentation disagree, the model follows the code:

- `=` groups to the left like every other operator: `a = b = c` is
  `(a = b) = c`. `parseBinary` only climbs when the next operator binds
  strictly tighter.
- The call postfix is applied once in `parse_Part` and once in
  `exprParse`. It is not a loop, so `f(1)(2)(3)` does not parse as one
  call chain.
- `getStuff` on a name that is bound to a defined value with no stuff
  yields undefined, not an error. On a name bound to undefined it is the
  host's TypeError, because it reads a property of undefined.
- A `~` comment consumes its terminating newline.
- If the left operand of `+ - * / %` is undefined, the result is the
  host's TypeError: `valueOf` is read before the number check.
- `then` is a keyword, but `ifParse` never consumes it. `if c then x`
  is therefore an unexpected-token error at `then`, and a conditional is
  written `if c x` or `if c x else y`.
- Calling undefined fails before the arguments are evaluated, because
  `func.apply` itself is missing. Calling any other non-function value
  fails after the arguments are evaluated.

## Definitions

These members model source code but carry no contract of their own: each
is the specification that the lemmas and methods in "## Model" are stated
against, and the same lines are cited there. "## Model" lists only members
whose contracts state something.

| definition | source | what it is |
|---|---|---|
| `CharStream.Advance` | rscc.js:11-12 | one `next()` step of the line and column |
| `CharStream.Track` | rscc.js:9-14 | the line and column after `pos` calls of `next()` |
| `Lexing.IsBlank` | rscc.js:55-57 | the blank test of `read_next` |
| `Lexing.IsDigit` | rscc.js:86 | the `/[0-9]/` test |
| `Lexing.IsLetter` | rscc.js:98 | the `/[a-zλ_]/i` test |
| `Lexing.IsOpChar` | rscc.js:112-114 | `isOperand_char` |
| `Lexing.IsKeyword` | rscc.js:103 | the keyword test on a word |
| `Lexing.Accept` | rscc.js:48-51 | one step of a `read_while` predicate, with the number rule's `has_dot` flag |
| `Lexing.DigitsValue` | rscc.js:96 | the integer a run of digits spells |
| `Lexing.NumberValue` | rscc.js:96 | `parseFloat` of a number lexeme, as an exact decimal |
| `Parsing.MakeOp` | rscc.js:173-178 | the `assign` or `binary` node `parseBinary` builds |
| `Environment.Exists` | rscc.js:468-471 | `exists`: the name is one of the scope's own |
| `Environment.OwnKeyCount` | rscc.js:357 | `Object.keys(env.args).length` |
| `Operators.Truthy` | rscc.js:375 | every value but `false` counts as true |
| `Operators.JsRem` | rscc.js:421-422 | JavaScript's `%`, whose sign follows the dividend |
| `Operators.Arithmetic` | rscc.js:413-422 | `+ - * / %` on two numbers |
| `Operators.Comparison` | rscc.js:427-434 | `< > <= >=` on two numbers |
| `Evaluation.Run` | rscc.js:509-510 | lexing, parsing and evaluating a program in the root scope |

## Model

| member | source | states |
|---|---|---|
| `CharStream.CharAt` | rscc.js:10-19 | `charAt(pos)` is a character exactly when `pos` is inside the code, and then it is the character at `pos` |
| `CharStream.Consumed` | rscc.js:9-14 | the characters `next()` has consumed after `pos` calls form a prefix of the code, of length `pos` when within it |
| `CharStream.Remaining` | rscc.js:18-20 | no character remains exactly when `eof()` holds at `pos` |
| `CharStream.TrackCountsLines` | rscc.js:9-14 | the line is one plus the number of newlines consumed; the column counts the characters since the last newline, and none of them is a newline |
| `CharStream.Stream.constructor` | rscc.js:4-7 | a new cursor is at position 0, line 1, column 0 |
| `CharStream.Stream.Next` | rscc.js:9-14 | `next()` returns the character at the old position and advances by one; it adds a line and resets the column exactly on `\n`, and otherwise adds one to the column |
| `CharStream.Stream.Peek` | rscc.js:15-17 | `peek()` returns the character at the position and does not move |
| `CharStream.Stream.Eof` | rscc.js:18-20 | `eof()` holds exactly when the position is at or past the end |
| `CharStream.Stream.Where` | rscc.js:21-23 | the line and column `printErr` reports are those the consumed prefix determines |
| `Lexing.Framed` | rscc.js:32 | the keyword string starts with a space, so each keyword is framed by spaces |
| `Lexing.TakeWhile` | rscc.js:48-52 | `read_while` never moves back, and stops inside the code |
| `Lexing.ScanString` | rscc.js:67-85 | the string loop never moves back and stops inside the code |
| `Lexing.DotIndex` | rscc.js:86-97 | the index of the first `.` of a number lexeme, or its length when it has none |
| `Lexing.Scan` | rscc.js:54-121 | `read_next` either reports the end beyond the last character, or a token that lies within the code and strictly shortens what remains, or a lexical error |
| `Lexing.ScanToken` | rscc.js:59-121 | a token read at the first non-blank character starts there and is non-empty; a failure is a lexical error |
| `Lexing.PeekToken` | rscc.js:39-41 | `peek()` returns a full slot unchanged; otherwise it fills the slot with the token it reads, never going backwards |
| `Lexing.NextToken` | rscc.js:34-38 | `next()` hands out a full slot and empties it; otherwise it reads a token, and reading one strictly advances the input |
| `Lexing.TokenStream.constructor` | rscc.js:28-30 | a new lexer has an empty lookahead slot |
| `Lexing.TokenStream.ReadWhile` | rscc.js:48-52 | the loop consumes exactly the run `TakeWhile` describes and returns those characters |
| `Lexing.TokenStream.ReadString` | rscc.js:67-85 | the escape-tracking loop returns the value `ScanString` describes and stops where it does |
| `Lexing.TokenStream.ReadNext` | rscc.js:54-121 | `read_next` returns what `Scan` gives at the old position and leaves the cursor after that token |
| `Lexing.TokenStream.Next` | rscc.js:34-38 | the method returns the token or error `NextToken` specifies and leaves the lexer in that state |
| `Lexing.TokenStream.Peek` | rscc.js:39-41 | the method returns the token or error `PeekToken` specifies and leaves the lexer in that state |
| `Lexing.TokenStream.Eof` | rscc.js:42-44 | `eof()` holds exactly when a peek finds no token, and leaves the lexer in the state the peek gives |
| `LexingProperties.OccursFramed` | rscc.js:32 | searching a space-framed list for a space-framed word succeeds exactly when the word is in the list |
| `LexingProperties.KeywordTestIsMembership` | rscc.js:32 | the `indexOf(" " + id + " ")` test on a word lexeme holds exactly when the word is one of `if then else fun true false loop stuff unstuff` |
| `LexingProperties.TokenStart` | rscc.js:55-66 | every token is read at the first character that is neither blank nor inside a comment |
| `LexingProperties.TakeWhileStops` | rscc.js:48-52 | `read_while` stops at the first character its predicate refuses, or at the end |
| `LexingProperties.NumberRun` | rscc.js:86-97 | a number run is digits with at most one dot, and it stops at a character that is not a digit, or at a second dot |
| `LexingProperties.TokenKinds` | rscc.js:59-121 | the first character alone decides which rule fires |
| `LexingProperties.WordTokens` | rscc.js:98-106 | a word token is a maximal run of word characters starting with a letter; it is `kw` exactly when the lexeme is a keyword, and `let` otherwise |
| `LexingProperties.WordShape` | rscc.js:98-106 | a word token is a `kw` or `let` token of the lexeme that the word run reads from a letter |
| `LexingProperties.OperatorTokens` | rscc.js:112-119 | an operator token is the maximal run of characters from `+-*/%=&\|<>!` |
| `LexingProperties.PunctuationTokens` | rscc.js:107-111 | a punctuation token is exactly one character of `,;()[]` |
| `LexingProperties.NumberTokens` | rscc.js:86-97 | a number token's lexeme starts with a digit, is digits with at most one dot, and its value is the decimal it spells |
| `LexingProperties.NumberShape` | rscc.js:86-97 | a number token is read from a digit by the number run, and its value is that of the lexeme |
| `LexingProperties.DigitsConcat` | rscc.js:96 | the digit value of `w + f` is the value of `w` shifted left by the length of `f`, plus the value of `f` |
| `LexingProperties.NoDotValue` | rscc.js:96 | `parseFloat` of a lexeme without a dot is the integer its digits spell |
| `LexingProperties.FractionSplit` | rscc.js:96 | `parseFloat` of a lexeme with a dot is its whole part plus its fraction digits over the matching power of ten |
| `LexingProperties.DecimalValue` | rscc.js:96 | `parseFloat` of `w.f` is the integer spelled by `w` and `f` together, divided by ten to the length of `f` |
| `LexingProperties.NumberValueExamples` | rscc.js:96 | `12.5`, `7` and `3.` lex to the numbers 12.5, 7 and 3 |
| `LexingProperties.UnknownCharacter` | rscc.js:120 | any other character is a lexical error reported at its own line and column |
| `LexingProperties.Escape` | rscc.js:67-85 | writing a string value with a backslash before each quote and backslash never shortens it |
| `LexingProperties.SpellsSplit` | rscc.js:67-85 | code that spells `(a + b) + c` at a position spells `a` there and `b + c` right after it |
| `LexingProperties.EscapeUnfold` | rscc.js:67-85 | escaping a non-empty text is escaping its first character followed by escaping the rest |
| `LexingProperties.ScanEscapes` | rscc.js:67-85 | the string loop reads the escaped text of any value back to that value, whatever follows it, and goes on just after it |
| `LexingProperties.EscapesEnd` | rscc.js:67-85 | after the last escape, the end of the input or a lone backslash just before it ends the string with the text gathered so far |
| `LexingProperties.ScanEscaped` | rscc.js:67-85 | the string loop reads an escaped text back to the original value and stops just after the closing quote |
| `LexingProperties.ScanEscapedChar` | rscc.js:67-85 | the string loop reads one escaped character back as that character |
| `LexingProperties.StringRoundTrip` | rscc.js:67-85 | a quoted, escaped string lexes to exactly the original value, without the quotes, and lexing resumes after the closing quote |
| `LexingProperties.UnterminatedEscaped` | rscc.js:70-84 | the end of the input ends an unterminated string without an error: the escaped text of any value that runs to the end, possibly followed by a lone backslash, reads back as that value |
| `LexingProperties.UnterminatedToken` | rscc.js:60-85 | a quote followed by the escaped text of any value, with or without a trailing backslash and with no closing quote, lexes to a string token of that value that runs to the end of the input |
| `LexingProperties.UnterminatedString` | rscc.js:70-84 | the end of the input ends an unterminated string without an error, keeping all the remaining text |
| `LexingProperties.CommentSkipped` | rscc.js:60-66 | a `~` comment is skipped up to and including its newline, and lexing resumes after that newline |
| `LexingProperties.NotNewlineRun` | rscc.js:61-63 | the comment's `read_while` stops exactly at the first newline |
| `LexingProperties.EndIsStable` | rscc.js:54-58 | once the input is exhausted, reading again still gives the end |
| `LexingProperties.PeekIdempotent` | rscc.js:39-41 | peeking twice gives the same token and the same state as peeking once |
| `LexingProperties.NextAfterPeek` | rscc.js:34-41 | `next()` after `peek()` returns the peeked token, empties the slot and reads nothing more |
| `Parsing.Names` | rscc.js:213-219 | a `fun`'s parameter list has one name per argument, in order |
| `Parsing.IsPunc` | rscc.js:143-148 | `isPunctuation(ch)` holds exactly when the buffered token is `ch`; with a full slot it changes nothing |
| `Parsing.IsKw` | rscc.js:149-152 | `isKeyword(kw)` holds exactly when the buffered token is `kw`; with a full slot it changes nothing |
| `Parsing.PeekOp` | rscc.js:153-156 | `isOperand()` gives an operator exactly when the buffered token is an operator token, and then names it; with a full slot it changes nothing |
| `Parsing.SkipPunc` | rscc.js:157-160 | skipping punctuation consumes a token, or fails |
| `Parsing.SkipKw` | rscc.js:161-164 | skipping a keyword consumes a token, or fails |
| `Parsing.ParseBinary` | rscc.js:166-184 | precedence climbing never consumes input backwards, and every operator node it builds is an assignment exactly for `=` and otherwise carries a table operator |
| `Parsing.Climb` | rscc.js:170-180 | climbing over an operator that binds tighter never consumes input backwards, and builds only table-operator nodes |
| `Parsing.RightOperand` | rscc.js:171-177 | the right operand of a consumed operator never consumes input backwards, and builds only table-operator nodes |
| `Parsing.CallPostfix` | rscc.js:292-295 | `proccessCall` returns the node itself, or a single call whose callee is that node |
| `Parsing.ExprParse` | rscc.js:259-263 | `exprParse` consumes at least one token, and every operator node it builds is from the table |
| `Parsing.ParsePart` | rscc.js:264-290 | `parse_Part` consumes at least one token or fails, and every operator node it builds is from the table |
| `Parsing.PartBody` | rscc.js:265-289 | the cases of `parse_Part` before the call postfix consume a token or fail |
| `Parsing.KeywordForms` | rscc.js:273-285 | the keyword cases of `parse_Part` consume a token or fail |
| `Parsing.LiteralForms` | rscc.js:278-285 | the boolean and `fun` cases consume a token or fail |
| `Parsing.Operand` | rscc.js:286-289 | the last case yields a variable, number or string node only, and fails on any other token |
| `Parsing.BlockParse` | rscc.js:255-258 | `blockParse` consumes input and builds a block of table-operator nodes |
| `Parsing.IfParse` | rscc.js:198-212 | `ifParse` consumes input or fails |
| `Parsing.LoopParse` | rscc.js:226-236 | `loopParse` consumes input or fails |
| `Parsing.StuffParse` | rscc.js:237-247 | `stuffParse` consumes input or fails |
| `Parsing.UnstuffParse` | rscc.js:248-254 | `unstuffParse` consumes input or fails |
| `Parsing.BoolParse` | rscc.js:220-225 | `boolParse` yields the boolean literal that is true exactly when the token it reads is the keyword `true`, and with a full slot it empties the slot |
| `Parsing.FunParse` | rscc.js:213-219 | `funParse` consumes input or fails |
| `Parsing.ArgName` | rscc.js:193-197 | `argsParse` yields a name, or fails on any token that is not a `let` |
| `Parsing.ParseItem` | rscc.js:190 | a `delimit` item consumes input or fails |
| `Parsing.Delimit` | rscc.js:297-310 | `delimit` consumes at least its start punctuation and builds only table-operator items |
| `Parsing.DelimitStep` | rscc.js:301-307 | one pass of the `delimit` loop stops, fails, or pushes an item after consuming input |
| `Parsing.DelimitRest` | rscc.js:304-307 | after the separator, a pass stops at the stop punctuation or pushes an item after consuming input |
| `Parsing.DelimitLoop` | rscc.js:301-309 | the `delimit` loop never consumes input backwards and pushes table-operator items only |
| `Parsing.ProgramLoop` | rscc.js:312-316 | `proccess`'s loop keeps the expressions already parsed as a prefix of the block |
| `Parsing.Parse` | rscc.js:312-317 | a parsed program is one top-level block whose operator nodes all come from the table |
| `ParsingProperties.Lookahead` | rscc.js:39-41 | after a peek that found a token, the buffered token is that token |
| `ParsingProperties.Leaf` | rscc.js:286-288 | a token that stands for itself is a node without operators |
| `ParsingProperties.TablePositive` | rscc.js:126-141 | every table precedence is at least 1, so climbing from 0 admits every operator |
| `ParsingProperties.OperandPart` | rscc.js:264-290 | an operand token not followed by `(` is a whole part |
| `ParsingProperties.KeywordStart` | rscc.js:264-281 | a part that starts with a keyword is the keyword dispatch of `parse_Part` with that keyword in the slot |
| `ParsingProperties.IfElseForm` | rscc.js:198-212 | `if c t else e` builds `If(c, t, Some(e))` and ends where `e` ends |
| `ParsingProperties.IfForm` | rscc.js:198-212 | `if c t` followed by anything but `else` builds `If(c, t, None)` and leaves the next token in the slot |
| `ParsingProperties.StrayKeyword` | rscc.js:264-290 | a keyword with no form of its own, such as `then` or `else`, is an unexpected-token error at the token after it |
| `ParsingProperties.LoopForm` | rscc.js:226-236 | `loop c b` builds `Loop(c, b)` and ends where `b` ends |
| `ParsingProperties.StuffForm` | rscc.js:237-247 | `stuff b v` builds `Stuff(b, v)` and ends where `v` ends |
| `ParsingProperties.UnstuffForm` | rscc.js:248-254 | `unstuff b` builds `Unstuff(b)` and ends where `b` ends |
| `ParsingProperties.BoolForm` | rscc.js:220-225 | a part that starts with the keyword `true` or `false` is the boolean literal it names, and ends right after the keyword |
| `ParsingProperties.FunStart` | rscc.js:213-219 | the `fun` keyword in the slot hands the rest to `funParse` |
| `ParsingProperties.FunForm` | rscc.js:193-219 | `fun [params] body` builds `Fun` of the parameter names in order and the body |
| `ParsingProperties.NameItemsAreVars` | rscc.js:193-197 | the parameter loop collects only name nodes |
| `ParsingProperties.ParamsAreNames` | rscc.js:193-197 | every item of a parsed parameter list is a name node |
| `ParsingProperties.FirstName` | rscc.js:301-307 | on the first pass, a name token is pushed as a name node and the loop goes on right after it |
| `ParsingProperties.NextName` | rscc.js:301-307 | on a later pass, the separator `,` and then a name token are read, the name node is pushed, and the loop goes on right after the name |
| `ParsingProperties.ListStop` | rscc.js:301-302 | the stop punctuation in the slot ends the loop with the items so far |
| `ParsingProperties.TwoNames` | rscc.js:193-197 | the loop over `a, b]` gives `a` then `b` and stops at `]` |
| `ParsingProperties.TwoParams` | rscc.js:193-197 | `[a, b]` gives the name nodes `a`, `b` in order and consumes the `]` |
| `ParsingProperties.FunTwoParams` | rscc.js:193-219 | `fun [a, b] body` builds `Fun(["a", "b"], body)` |
| `ParsingProperties.BinaryAtEnd` | rscc.js:166-184 | at the end of the input `parseBinary` returns its left operand |
| `ParsingProperties.ClimbsOver` | rscc.js:167-180 | with a table operator in the slot that binds tighter than the bound, `parseBinary` consumes it and climbs |
| `ParsingProperties.StopsBefore` | rscc.js:167-183 | with a table operator in the slot that binds no tighter, `parseBinary` returns its left operand and leaves the operator in the slot |
| `ParsingProperties.OperandAfter` | rscc.js:171-177 | the right operand of an operator starts as the operand token after it, climbed at that operator's precedence |
| `ParsingProperties.LastOperand` | rscc.js:171-177 | an operand token at the end of the input is the whole right operand, and the lexer is then at the end |
| `ParsingProperties.ClimbTighter` | rscc.js:166-184 | after `x`, the input `o1 y o2 z` with a tighter `o2` climbs to `x o1 (y o2 z)` and reads to the end |
| `ParsingProperties.ClimbLeft` | rscc.js:166-184 | after `x`, the input `o1 y o2 z` with an equal or looser `o2` climbs to `(x o1 y) o2 z` and reads to the end |
| `ParsingProperties.Precedence` | rscc.js:166-184 | in `x o1 y o2 z`, a tighter `o2` gives `x o1 (y o2 z)` and an equal or looser one gives `(x o1 y) o2 z` |
| `ParsingProperties.AssignGroupsLeft` | rscc.js:126-184 | `a = b = c` parses as `(a = b) = c` |
| `ParsingProperties.UnknownOperatorStops` | rscc.js:153-184 | an operator missing from the table ends the expression and stays unconsumed in the slot |
| `ParsingProperties.Prefixed` | rscc.js:297-310 | putting items in front of a `delimit` result keeps its success, its error and its rest |
| `ParsingProperties.PrefixedTwice` | rscc.js:297-310 | putting two item lists in front is putting their concatenation in front |
| `ParsingProperties.DelimitUnfold` | rscc.js:301-309 | one loop pass either stops with the items so far, fails, or pushes an item and loops again |
| `ParsingProperties.DelimitKeepsOrder` | rscc.js:301-309 | items are collected in source order, after those pushed before |
| `ParsingProperties.DelimitEmpty` | rscc.js:297-310 | `start stop` gives the empty list |
| `ParsingProperties.DelimitTrailing` | rscc.js:303-306 | a separator directly before the stop punctuation ends the list without another item |
| `ParsingProperties.DelimitNeedsSeparator` | rscc.js:303-305 | after an item, any token but the separator or the stop is an error |
| `ParsingProperties.DelimitMissingStart` | rscc.js:300 | a list that does not begin with its start punctuation is an error |
| `ParsingProperties.StepEnds` | rscc.js:301-309 | one pass of the loop that ends the list stops at the stop punctuation or at the end of the input |
| `ParsingProperties.LoopEnds` | rscc.js:301-309 | a successful loop ends at the stop punctuation or at the end of the input |
| `ParsingProperties.DelimitMissingStop` | rscc.js:297-310 | whatever was read before, a list whose loop ends at the end of the input is an error for its missing stop punctuation at that position; one that ends at the stop consumes it and gives the items |
| `ParsingProperties.ParamsCutOff` | rscc.js:297-310 | `[a, b` followed by the end of the input is the missing-`]` error |
| `ParsingImpl.Parser.constructor` | rscc.js:125 | the parser reads from the given lexer |
| `ParsingImpl.Parser.IsPunctuation` | rscc.js:143-148 | the method gives what `IsPunc` specifies, and leaves the lexer in that state |
| `ParsingImpl.Parser.IsKeyword` | rscc.js:149-152 | the method gives what `IsKw` specifies, and leaves the lexer in that state |
| `ParsingImpl.Parser.IsOperand` | rscc.js:153-156 | the method gives what `PeekOp` specifies, and leaves the lexer in that state |
| `ParsingImpl.Parser.SkipPunctuation` | rscc.js:157-160 | the method gives what `SkipPunc` specifies, and leaves the lexer in that state |
| `ParsingImpl.Parser.SkipKeyword` | rscc.js:161-164 | the method gives what `SkipKw` specifies, and leaves the lexer in that state |
| `ParsingImpl.Parser.ParseBinary` | rscc.js:166-184 | the method gives the node or error `Parsing.ParseBinary` specifies, and leaves the lexer in that state |
| `ParsingImpl.Parser.Climb` | rscc.js:170-180 | the method gives what `Parsing.Climb` specifies, and leaves the lexer in that state |
| `ParsingImpl.Parser.RightOperand` | rscc.js:171-177 | the method consumes the operator and gives what `Parsing.RightOperand` specifies |
| `ParsingImpl.Parser.CallPostfix` | rscc.js:292-295 | the method gives what `Parsing.CallPostfix` specifies |
| `ParsingImpl.Parser.ExprParse` | rscc.js:259-263 | the method gives what `Parsing.ExprParse` specifies |
| `ParsingImpl.Parser.ParsePart` | rscc.js:264-290 | the method gives what `Parsing.ParsePart` specifies |
| `ParsingImpl.Parser.PartBody` | rscc.js:265-289 | the method gives what `Parsing.PartBody` specifies |
| `ParsingImpl.Parser.KeywordForms` | rscc.js:273-285 | the method gives what `Parsing.KeywordForms` specifies |
| `ParsingImpl.Parser.LiteralForms` | rscc.js:278-285 | the method gives what `Parsing.LiteralForms` specifies |
| `ParsingImpl.Parser.Operand` | rscc.js:286-289 | the method gives what `Parsing.Operand` specifies |
| `ParsingImpl.Parser.BlockParse` | rscc.js:255-258 | the method gives what `Parsing.BlockParse` specifies |
| `ParsingImpl.Parser.IfParse` | rscc.js:198-212 | the method gives what `Parsing.IfParse` specifies |
| `ParsingImpl.Parser.LoopParse` | rscc.js:226-236 | the method gives what `Parsing.LoopParse` specifies |
| `ParsingImpl.Parser.StuffParse` | rscc.js:237-247 | the method gives what `Parsing.StuffParse` specifies |
| `ParsingImpl.Parser.UnstuffParse` | rscc.js:248-254 | the method gives what `Parsing.UnstuffParse` specifies |
| `ParsingImpl.Parser.BoolParse` | rscc.js:220-225 | the method gives what `Parsing.BoolParse` specifies |
| `ParsingImpl.Parser.FunParse` | rscc.js:213-219 | the method gives what `Parsing.FunParse` specifies |
| `ParsingImpl.Parser.ArgsParse` | rscc.js:193-197 | the method gives what `Parsing.ArgName` specifies |
| `ParsingImpl.Parser.ParseItem` | rscc.js:190 | the method gives what `Parsing.ParseItem` specifies |
| `ParsingImpl.Parser.DelimitRest` | rscc.js:304-307 | the method gives what `Parsing.DelimitRest` specifies |
| `ParsingImpl.Parser.DelimitPass` | rscc.js:301-307 | the method gives what `Parsing.DelimitStep` specifies |
| `ParsingImpl.Parser.Delimit` | rscc.js:297-310 | skipping the start, the item loop and skipping the stop give the list or error `Parsing.Delimit` specifies |
| `ParsingImpl.Parser.DelimitItems` | rscc.js:301-307 | the `while` loop that pushes items gives the list or error `Parsing.DelimitLoop` specifies from its first pass |
| `ParsingImpl.Parser.Process` | rscc.js:312-316 | the `while` loop that pushes expressions gives the program block `Parsing.ProgramLoop` specifies |
| `ParsingImpl.ParseProgram` | rscc.js:509 | lexing and parsing through the objects gives exactly `Parsing.Parse` of the code |
| `Environment.Chain` | rscc.js:454-462 | the scopes on a chain are the scope itself and ancestors with smaller indices, so the chain ends |
| `Environment.Lookup` | rscc.js:464-467 | a name's nearest binding refers only to frames that exist |
| `Environment.Get` | rscc.js:464-467 | `get` yields a stored value, or the undefined-variable error for that name |
| `Environment.Define` | rscc.js:473-475 | `set` and `def` keep the store valid and its size |
| `Environment.SetStuff` | rscc.js:476-479 | `setStuff` keeps the store valid and its size |
| `Environment.GetStuff` | rscc.js:480-483 | `getStuff` yields a value stored in the store |
| `Environment.Extend` | rscc.js:460-462 | `extend` appends exactly one empty scope whose parent is the current scope, leaving the others unchanged |
| `Environment.RootStore` | rscc.js:490-502 | the interpreter starts with one valid root scope |
| `ScopeObjects.Scopes.constructor` | rscc.js:454-457 | the scopes start as the root store |
| `ScopeObjects.Scopes.Define` | rscc.js:473-475 | the in-place `set`/`def` leaves the store `Environment.Define` gives |
| `ScopeObjects.Scopes.SetStuff` | rscc.js:476-479 | the in-place `setStuff` leaves the store `Environment.SetStuff` gives |
| `ScopeObjects.Scopes.Extend` | rscc.js:460-462 | the in-place `extend` leaves the store and child `Environment.Extend` gives |
| `EnvironmentProperties.LookupOnChain` | rscc.js:464-467 | a lookup succeeds exactly when some scope on the chain binds the name, and then it gives the binding of a scope on the chain that binds it, with no binding scope nearer (at a larger index) |
| `EnvironmentProperties.GetSucceedsIffBound` | rscc.js:464-467 | `get(n)` succeeds exactly when some scope on the chain binds `n` |
| `EnvironmentProperties.LookupBelow` | rscc.js:454-467 | a lookup depends only on the scope and its ancestors |
| `EnvironmentProperties.DefineThenGet` | rscc.js:473-475 | after `set`/`def`, `get(n)` gives the new value; no other scope changes, and every ancestor's lookups are unchanged |
| `EnvironmentProperties.SetStuffKeepsPrimary` | rscc.js:476-483 | after `setStuff`, `get(n)` gives the primary value from before, `getStuff(n)` gives the new stuff, and ancestors are unchanged |
| `EnvironmentProperties.GetStuffFailures` | rscc.js:480-483 | `getStuff` gives the undefined-stuffed-variable error exactly when the name is unbound everywhere on the chain; its only other failure is reading a property of undefined |
| `EnvironmentProperties.ExistsIsOwnOnly` | rscc.js:468-471 | `exists` sees a scope's own names only, not a parent's |
| `EnvironmentProperties.ExistsThenGet` | rscc.js:464-471 | a name the current scope owns is what `get` finds |
| `EnvironmentProperties.ExtendKeepsLookups` | rscc.js:460-462 | `extend` changes no existing scope's lookups |
| `Builtins.Factorial` | rscc.js:498-502 | `n!` is at least 1 and at least `n` |
| `Builtins.Iterations` | rscc.js:500 | the loop makes as many rounds as there are integers from 1 to `a` |
| `Builtins.Fact` | rscc.js:498-502 | the counting loop returns the factorial of the number of rounds |
| `Builtins.FactOfNatural` | rscc.js:498-502 | for a natural number `n`, the rounds number `n` and the result is `n!` |
| `Builtins.NextProduct` | rscc.js:500 | one round of the loop turns the product `(i - 1)!` into `i!` |
| `Builtins.FactorialStep` | rscc.js:500 | each round multiplies by the next counter, so the product never decreases |
| `Operators.Trunc` | rscc.js:412 | rounding toward zero stays between zero and the quotient, within one of it |
| `Operators.ApplyOp` | rscc.js:401-441 | the unknown-operator error comes exactly for operators without a case; arithmetic and comparison succeed only on numbers; a result is an operand, a number or a boolean |
| `OperatorProperties.NumbersOnly` | rscc.js:402-422 | `+ - * / % < > <= >=` refuse a non-number operand with "number expected", or with the host's TypeError when an arithmetic operator's left operand is undefined |
| `OperatorProperties.NumbersSucceed` | rscc.js:402-434 | on two numbers they fail exactly for `/` or `%` by zero |
| `OperatorProperties.ZeroDivisorFails` | rscc.js:407-412 | `/` and `%` refuse a zero right operand |
| `OperatorProperties.AndYields` | rscc.js:423-424 | `a && b` is `false` when `a` is `false` and `b` otherwise; it is truthy exactly when both are; on booleans it is conjunction |
| `OperatorProperties.OrYields` | rscc.js:425-426 | `a \|\| b` is `a` unless it is `false`, and `b` otherwise; it is truthy exactly when either is; on booleans it is disjunction |
| `OperatorProperties.StrictEquality` | rscc.js:435-438 | `==` and `!=` are uncoerced: a number never equals a string, `false` is not `0`, and closures from different `fun` evaluations differ |
| `OperatorProperties.HandledAreTableOperators` | rscc.js:126-141 | the operators with a case are exactly the table's operators other than `=`; any other gives the unknown-operator error |
| `OperatorProperties.RemainderTruncates` | rscc.js:421-422 | `%` has the sign of the dividend and a magnitude below the divisor's |
| `OperatorProperties.NegativeRemainder` | rscc.js:421-422 | `-7 % 2` is `-1` and `7 % -2` is `1` |
| `Evaluation.StuffKey` | rscc.js:377-383 | the key of `stuff`/`unstuff` exists only for a non-empty block base, and is the name when that base starts with a variable |
| `Evaluation.InitTarget` | rscc.js:358 | a for loop's initialiser has a target exactly when it is an assignment or a binary node; an assignment to a variable targets its name |
| `Evaluation.LoopScope` | rscc.js:356-357 | a for loop stays in the current scope exactly when it has one own key, and otherwise runs in a fresh child |
| `Evaluation.BindParams` | rscc.js:442-449 | a call's fresh scope binds exactly the parameter names, each to an argument or to `false`, with no stuff |
| `Evaluation.FactCall` | rscc.js:498-502 | `fact` gives a number of at least 1, and for a number it is the factorial of its rounds |
| `Evaluation.Eval` | rscc.js:325-400 | a successful evaluation keeps the store valid, only adds scopes and closures, and yields a value whose closure scope exists |
| `Evaluation.ForIteration` | rscc.js:364-366 | the condition and round of a for loop keep the store valid and only add to it |
| `Evaluation.ForRound` | rscc.js:362-365 | a round of a for loop keeps the store valid and only adds to it |
| `Evaluation.EvalList` | rscc.js:384-397 | a list evaluation gives one value per expression, each valid in the final store |
| `Evaluation.Apply` | rscc.js:392-397 | applying a function keeps the store valid and only adds to it |
| `EvaluationProperties.OnlyFalseIsFalsy` | rscc.js:373-376 | `0` and `""` take the `then` branch, and a `false` condition with no `else` yields `false` |
| `EvaluationProperties.LoopYieldsFalse` | rscc.js:345-372 | a loop that ends normally yields `false`, however many rounds it ran |
| `EvaluationProperties.ForYieldsFalse` | rscc.js:360-366 | a for loop's remaining rounds yield `false` when they end normally |
| `EvaluationProperties.RoundYieldsFalse` | rscc.js:362-365 | a for loop round yields `false` when it ends normally |
| `EvaluationProperties.WhileFalseSkipsBody` | rscc.js:347-353 | a while loop whose condition is `false` yields `false` and changes nothing |
| `EvaluationProperties.LoopConditionShape` | rscc.js:346-371 | a loop condition that is not a block is a host error, and a block of other than 1 or 3 expressions is the arity error |
| `EvaluationProperties.ForLoopStart` | rscc.js:355-360 | a for loop stays in the current scope exactly when it has one own key, and runs its initialiser exactly when its target is not an own name of the loop's scope |
| `EvaluationProperties.ForReentrySkipsInit` | rscc.js:355-366 | a for loop re-entered in a scope whose one own key is its target goes straight to the condition |
| `EvaluationProperties.EvalListSnoc` | rscc.js:384-397 | a list with one more expression evaluates the earlier ones first, then the last in the state they leave |
| `EvaluationProperties.BlockYieldsLast` | rscc.js:384-389 | a block yields its last expression's value after the others ran, and an empty block yields `false` |
| `EvaluationProperties.AndEvaluatesBoth` | rscc.js:337-342 | `&&` evaluates its right operand even when the left is `false` |
| `EvaluationProperties.OrEvaluatesBoth` | rscc.js:337-342 | `\|\|` evaluates its right operand even when the left is truthy, and yields the left value |
| `EvaluationProperties.AssignBindsName` | rscc.js:333-336 | only a name can be assigned, checked before the right side runs; a successful assignment binds the name to the value it yields |
| `EvaluationProperties.ParameterBinding` | rscc.js:442-449 | the last occurrence of parameter `i` is bound to argument `i`, or to `false` when too few are passed |
| `EvaluationProperties.CallRunsInFreshChild` | rscc.js:444-448 | a closure call runs in one new scope whose parent is the closure's scope |
| `EvaluationProperties.FactOfNatural` | rscc.js:498-502 | calling `fact` on a natural number `n` yields `n!` and changes nothing |
| `EvaluationProperties.NameBlock` | rscc.js:377-383 | the base `[x]` of `stuff`/`unstuff` reads `x` and changes nothing |
| `EvaluationProperties.UnstuffReadsStuff` | rscc.js:377-383 | after `stuff [x] v`, `unstuff [x]` in the same scope yields the stuffed value, and `x` keeps its value |
| `EvaluationProperties.StuffName` | rscc.js:377-380 | `stuff [x] v` stores the value of `v` as the stuff of `x` and yields that value |
| `Interpreting.ResumeStep` | rscc.js:384-397 | one more item of a list evaluation joins its value to those before it, or ends the list with its error |
| `Interpreting.Interpreter.constructor` | rscc.js:490-502 | the interpreter starts with the root scope and no closures |
| `Interpreting.Interpreter.Evaluate` | rscc.js:325-400 | `evaluate` on the mutable scopes gives the value or error `Eval` specifies and leaves the scopes it gives |
| `Interpreting.Interpreter.EvaluateAssign` | rscc.js:333-336 | the assign case agrees with `Eval` |
| `Interpreting.Interpreter.EvaluateBinary` | rscc.js:337-342 | the binary case agrees with `Eval` |
| `Interpreting.Interpreter.EvaluateIf` | rscc.js:373-376 | the if case agrees with `Eval` |
| `Interpreting.Interpreter.EvaluateStuff` | rscc.js:377-380 | the stuff case agrees with `Eval` |
| `Interpreting.Interpreter.EvaluateUnstuff` | rscc.js:381-383 | the unstuff case agrees with `Eval` |
| `Interpreting.Interpreter.EvaluateLoop` | rscc.js:345-372 | the loop case agrees with `Eval` |
| `Interpreting.Interpreter.ForIteration` | rscc.js:360-366 | the condition and round of a for loop agree with `Evaluation.ForIteration` |
| `Interpreting.Interpreter.ForRound` | rscc.js:362-365 | a round of a for loop agrees with `Evaluation.ForRound` |
| `Interpreting.Interpreter.EvaluateList` | rscc.js:384-397 | the `forEach` over a block and the argument `map` agree with `EvalList` |
| `Interpreting.Interpreter.EvaluateCall` | rscc.js:390-397 | the call case agrees with `Eval` |
| `Interpreting.Interpreter.Apply` | rscc.js:390-395 | calling a closure or a built-in agrees with `Evaluation.Apply`, and any other value is not callable |
| `Interpreting.Interpreter.ApplyClosure` | rscc.js:442-449 | a closure runs its body in a fresh child of its scope, after the `for` loop binds its parameters, in agreement with `Evaluation.Apply` |
| `Interpreting.RunProgram` | rscc.js:509-510 | lexing, parsing and evaluating a program in a fresh interpreter gives `Run` of the code |

## Left out

- File reading and the start-up banners (rscc.js:504-508, 511) are I/O. The program text is a parameter.
- The output of `print` is I/O. A call of `print` yields undefined and changes nothing.
- `exp` (`Math.pow`) is floating point. Calling it gives the `NotModelled` error.
- Numbers are exact reals. The model has no IEEE rounding, NaN or Infinity. `/` is exact division. `parseFloat` of a lexeme is its exact decimal value.
- A number used as a `stuff`/`unstuff` key would be formatted by the host. That case gives `NotModelled`.
- `fact` on a string would compare after the host's numeric conversion. That case gives `NotModelled`.
- `setStuff` boxes the old value with `Object(...)`. The model stores the pair (primary value, stuff) instead. It therefore leaves out these effects:
  - a box compares by identity under `===`;
  - `valueOf` unboxes only the left operand of an arithmetic operator;
  - `Object(x)` is `x` itself when `x` is already an object (a function, or a box from an earlier `setStuff`), so stuffing such a value changes that one object, and every binding that holds it sees the new stuff;
  - `Object(undefined)` is an empty object;
  - the stuff lives on the boxed value, so it travels with that value. Reading the name (rscc.js:332), assigning it (rscc.js:336) or passing it as an argument (rscc.js:447) copies the box with its stuff. In the source, `stuff [x] 5` then `y = x` then `unstuff [y]` gives 5, while in the model `get` yields only the primary value, `set` stores a binding without stuff, and the result is undefined;
  - a stuffed `false` is a box, and `Object(false) !== false`, so the source treats it as true: in `if` (rscc.js:375), in loop conditions (rscc.js:349, 361) and in `&&`/`||` (rscc.js:424, 426). In the source, `x = false` then `stuff [x] 1` then `if x 1 else 2` gives 1; the model tests the primary value `false` and gives 2.
- The host's TypeErrors are one generic error each: `HostTypeError` for property reads on undefined, and `NotCallable` for calling a value that is not a function. Error message texts are not reproduced.
- Call-stack exhaustion is replaced by fuel. Every nested evaluation spends one unit, and running out gives `StackExhausted`.
- The `ret` branch of `parse_Part` (rscc.js:282-284) is not modelled. `ret` is not a keyword, so the branch never fires.
- EnvironmentProperties.SetStuffKeepsPrimary: its "ancestors unchanged" clause holds in the source only when `Object(...)` makes a fresh box. When the value is already an object, the source changes that shared object, and an ancestor binding that holds the same object sees the new stuff.
- CharStream.CharAt, CharStream.Track: a Dafny character is a Unicode scalar value, while JavaScript strings index UTF-16 code units. A character outside the Basic Multilingual Plane advances the source's `pos` and `col` by 2 and the model's by 1 (after both characters of `"\u{1F600}x"` are read, the source reports column 3 and the model column 2). A lone surrogate cannot occur in a Dafny string, so the source's "Can't handle character" error on one is not modelled.
- Evaluation.Run: carries no contract of its own. It composes `Parse` and `Eval`, and `Interpreting.RunProgram` is proved equal to it.
- Evaluation.Eval: states the store invariant and growth, not the value of each case. The values are stated by the lemmas of `EvaluationProperties` and by the `Interpreter` methods that agree with it.
