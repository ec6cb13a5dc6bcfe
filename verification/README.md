# easy_interpreter in Dafny

A model of the EasyScript interpreter: a small imperative language with
variables, arithmetic, comparisons, `if`, `while` and a built-in `print`. The
interpreter is a pipeline, and so is the model:

- `lexer.dfy` (module `Lexer`) is the tokenizer. At the cursor it tries the
  token classes in the order of the source's regular-expression alternation:
  comment, number, whitespace, punctuation, identifier, string, `for` clause.
  The first class that matches at the cursor wins, and the cursor advances by
  the match. If no class matches there, lexing fails. `Tokenize` is the pure
  definition. `GetTokens` is the cursor loop of the source, proved equal to it.
- `parser.dfy` (module `Parser`) is the recursive-descent parser. Each
  function reads a position in the token array and returns the node and the
  position after it, or the error the source throws. The error is
  `EndOfInput` when the source would index past the end of the array.
  `Parse` drops the whitespace tokens first, as the parser's constructor does.
- `printer.dfy` (module `Printer`) is the parser's partner. It prints a syntax
  tree back to tokens, using the parser's own quirks: a trailing `,` after
  every argument, and `(` `)` for an absent argument list. It proves that every
  tree of the shape the grammar builds, whose variable names are word-character
  names other than `if` and `while`, parses back to itself
  (`ProgramRoundTrip`, `ParseRoundTrip`).
- `values.dfy` (module `Values`) holds the runtime values, their display
  text, and the Calculator. The Calculator checks the operand types the
  operator demands and then computes.
- `evaluator.dfy` (module `Evaluator`) is the tree-walking evaluator.
  - The state is a flat global environment plus the list of lines printed so
    far.
  - The first runtime error aborts the run and keeps the output printed
    before it.
  - Statements run on fuel, so a `while` loop that never stops runs out of
    fuel for every bound.
- `interpreter.dfy` (module `Interpreter`) composes the stages. It includes a
  proof that the source text `print(1,);` prints `PRINT:` and then the text of
  the number 1.
- `parser_facts.dfy` and `evaluator_facts.dfy` hold the properties of the
  parser and of the evaluator. `ast.dfy`, `errors.dfy` and `wrappers.dfy` hold
  the syntax tree, the error kinds and `Option`/`Result`.

The model keeps the source's quirks rather than correcting them:

- `<=` and `>=` both compute `<`.
- A comparison chain keeps its first operator for every link, so `a < b == c`
  parses as `(a < b) < c`.
- Every non-empty argument list needs a trailing comma: `f(a,)` parses and
  `f(a)` does not.
- `f()` builds an absent argument list, and calling with it is a null
  dereference.
- A `while` statement evaluates its condition once for the type check and
  again before the first iteration.
- A condition that stops being a Boolean later in the loop is read through a
  null reference.
- Only whitespace tokens are filtered, so a comment reaches the parser and is
  rejected there.

The model follows the code in two places a reader might not expect:

- `&` belongs to the punctuation class (Lexer.cs:27).
- A block that runs into the end of input fails on the index past the end
  (`EndOfInput`), not with "expected end of block" (Parser.cs:369-373).
  `skip_if_value` reads the current token before it tests for the end
  (Parser.cs:95).

## Model

| member | source | states |
|---|---|---|
| Lexer.RunMaximal | Lexer.cs:25-28 | The greedy run of a character class covers only characters of the class and stops at the first character outside it or at the end. |
| Lexer.CommentMatch | Lexer.cs:29 | The comment class matches exactly when the text starts with `//` and a newline follows; the match ends with the first such newline. |
| Lexer.MatchString | Lexer.cs:30 | A string match starts with `"` or `@"`, ends with `"`, and holds no newline. |
| Lexer.QuotedTail | Lexer.cs:30 | The body of a string match ends with a quote and stays on the line it started on. |
| Lexer.QuotedTailMatch | Lexer.cs:30 | A string body matches exactly when a quote follows on the same line, and the match reaches the last quote before the line ends. |
| Lexer.StringMatch | Lexer.cs:30 | A `"` opening makes a string token exactly when a second `"` follows on the same line; the token runs to the last `"` on that line, so `"a" $ "b"` is one token. |
| Lexer.VerbatimStringMatch | Lexer.cs:30 | The same for an `@"` opening. |
| Lexer.MatchPunctuation | Lexer.cs:27 | The match is two characters exactly at `==`, `!=`, `<=` or `>=`, one character exactly at any other character of the class, and none otherwise. |
| Lexer.MatchFor | Lexer.cs:31 | A `for` clause match starts with `for`, ends with `)` and is at least five characters long. |
| Lexer.MatchLength | Lexer.cs:13-14 | No class matches more than the remaining text, and the Operator and None kinds, which have no pattern, never match. |
| Lexer.FirstMatch | Lexer.cs:13-14 | A match is a non-empty prefix of the input, of one of the tried kinds, exactly as long as that kind's pattern matches. |
| Lexer.NextToken | Lexer.cs:32-41 | The next token's text is a non-empty prefix of the remaining input. |
| Lexer.NextTokenCascade | Lexer.cs:13-14 | The token at the cursor is comment, else number, else whitespace, else punctuation, else identifier, else string, else `for` clause, the first whose pattern matches. |
| Lexer.Tokenize | Lexer.cs:32-41 | There are never more tokens than characters, and a failure is the lexing error on a non-empty suffix of the input. |
| Lexer.TokenizeRoundTrip | Lexer.cs:38-41 | The texts of the tokens concatenate back to the whole input, and no token is empty. |
| Lexer.TokenizeFailsAtCursor | Lexer.cs:33-40 | A failure carries the suffix of the input at the cursor, and no token class matches at its start. |
| Lexer.TokenizeStep | Lexer.cs:65-69 | Tokenizing is one token at the cursor followed by the tokens of the rest, or the failure at the cursor. |
| Lexer.GetTokens | Lexer.cs:65-69 | The loop that advances the cursor by each match until the end of the input returns exactly the tokens of `Tokenize`, or its failure. |
| Lexer.ForCycleNeverWins | Lexer.cs:25-31 | No token is ever of the `for` clause kind: the identifier class, tried first, always matches `for`. |
| Lexer.ForClauseStartsWithIdentifier | Lexer.cs:31 | `for` followed by a non-word character lexes as the identifier `for`. |
| Lexer.TwoCharOperatorIsOneToken | Lexer.cs:27 | `==`, `!=`, `<=` and `>=` are one punctuation token, never two. |
| Lexer.PunctuationCharIsOneToken | Lexer.cs:27 | A punctuation character other than `/` that is not followed by `=` is a token of its own. |
| Lexer.PunctuationThen | Lexer.cs:27 | Such a character followed by text that lexes to `ts` lexes to its punctuation token followed by `ts`. |
| Lexer.DigitStartsNumber | Lexer.cs:28 | At a digit the token is the number made of the maximal run of digits. |
| Lexer.WordStartsIdentifier | Lexer.cs:25 | At a word character that is not a digit, the token is the identifier made of the maximal run of word characters. |
| Lexer.NumberThen | Lexer.cs:28 | A digit run followed by a non-digit lexes to one number token followed by the tokens of the rest. |
| Lexer.WordThen | Lexer.cs:25 | A word run followed by a non-word character lexes to one identifier token followed by the tokens of the rest. |
| Lexer.DigitsThenWord | Lexer.cs:25-28 | `12ab` lexes as the number `12` followed by the identifier `ab`. |
| Lexer.SlashesWithoutNewline | Lexer.cs:29 | `//` with no newline after it is not a comment: the token is the punctuation `/`. |
| Lexer.SlashesLexAsTwo | Lexer.cs:27-29 | `//` with no later newline lexes as two `/` punctuation tokens. |
| Lexer.CommentShape | Lexer.cs:29 | A comment token starts with `//`, ends with its first newline and holds no other newline. |
| Lexer.NextTokenShape | Lexer.cs:25-31 | Every token is of a produced kind, has its class's shape, and a number, whitespace or identifier token is maximal. |
| Lexer.TokenizeShapes | Lexer.cs:25-31 | Every token of a successful tokenization has its class's shape, and no number, whitespace or identifier token could have extended into its successor. |
| Lexer.FirstPairMaximal | Lexer.cs:25-28 | The second token of a tokenization cannot extend the first. |
| Lexer.TokenizeWhole | Lexer.cs:65-69 | An input that is exactly one token lexes to that single token. |
| Lexer.DollarFails | Lexer.cs:35-40 | An input starting with `$` fails with the whole input as the offending text. |
| Parser.FilterSpaces | Parser.cs:90-92 | The filtered array holds exactly the tokens of the input that are not whitespace. |
| Parser.FilterSpacesAppend | Parser.cs:90-92 | Filtering distributes over concatenation, so the order of the kept tokens is preserved. |
| Parser.FilterSpacesKeeps | Parser.cs:90-92 | An array without whitespace tokens passes unchanged. |
| Parser.Current | Parser.cs:74-78 | Reading the current token succeeds exactly when the position is inside the array, and otherwise fails with the index error. |
| Parser.Expect | Parser.cs:118-125 | A required token is consumed exactly when it is the current token, moving the position by one. |
| Parser.DecimalValue | Parser.cs:220-226 | The value of a literal of n digits is below ten to the n. |
| Parser.ParseExpression | Parser.cs:228-230 | A parsed expression consumes at least one token, has the shape of the grammar's Expression, and stops at a token that cannot continue it. |
| Parser.ParseComparison | Parser.cs:232-254 | As for an expression: the result is a comparison chain over sums, and it stops inside the array. |
| Parser.ComparisonLoop | Parser.cs:235-252 | Every link of the chain carries the operator read once before the loop, and the loop stops at a token that is not a comparison operator. |
| Parser.ParseSum | Parser.cs:256-273 | A parsed sum is a left-deep chain of products joined by `+`/`-`, stopping at a token that is neither. |
| Parser.SumLoop | Parser.cs:258-271 | The loop stops at a token that is not `+` or `-` and keeps the sum shape of its left operand. |
| Parser.ParseProduct | Parser.cs:275-292 | A parsed product is a left-deep chain of primaries joined by `*`/`/`, stopping at a token that is neither. |
| Parser.ProductLoop | Parser.cs:277-290 | The loop stops at a token that is not `*` or `/` and keeps the product shape of its left operand. |
| Parser.ParsePrimary | Parser.cs:294-308 | A primary is a main expression with zero or more argument lists applied, and it never stops at `(`. |
| Parser.CallLoop | Parser.cs:296-306 | The call loop consumes every following argument list and stops at a token that is not `(`. |
| Parser.ParseArguments | Parser.cs:330-342 | An argument list starting with `(` consumes at least `(` and `)`, and its items all have the Expression shape. |
| Parser.ArgumentLoop | Parser.cs:336-339 | The loop ends just after a `)`, extends the items parsed so far, and adds only expressions. |
| Parser.ParseMain | Parser.cs:310-328 | A main expression is a number, a variable or a parenthesis, and consumes at least one token. |
| Parser.ParseParenthesis | Parser.cs:344-352 | A parenthesis wraps an expression and ends just after its `)`. |
| Parser.ParseStatement | Parser.cs:133-153 | A statement ends just after `}` when it starts with `if` or `while`, and otherwise just after `;`. |
| Parser.ParseSimpleStatement | Parser.cs:147-150 | An assignment or expression statement ends just after its `;`. |
| Parser.ParseAssignment | Parser.cs:161-190 | An accepted assignment stops where an expression may stop, and an expression statement stops at `;`. |
| Parser.ParseClause | Parser.cs:192-212 | An `if`/`while` clause ends just after the `}` of its body. |
| Parser.ParseBlock | Parser.cs:366-379 | A block ends just after its `}` and extends the statements parsed so far. |
| Parser.ParseStatements | Parser.cs:354-364 | The top-level loop extends the statements parsed so far, and adds at least one statement exactly when tokens remain. |
| Parser.ParseProgram | Parser.cs:127-131 | A parsed program has no statements exactly when there are no tokens. |
| Parser.Parse | Parser.cs:86-92 | A token list of only whitespace parses to the empty program, and only such a list does. |
| ParserFacts.LastTokenTerminates | Parser.cs:354-364 | A statement list that parses ends with `;` or `}`. |
| ParserFacts.ProgramEndsInTerminator | Parser.cs:127-131 | Every non-empty program that parses ends with `;` or `}`. |
| ParserFacts.EmptyProgram | Parser.cs:354-359 | The empty token array is the empty program. |
| ParserFacts.ParenthesisClosed | Parser.cs:344-352 | When the inner expression is followed by `)`, the parenthesis holds that expression and ends right after that `)`. |
| ParserFacts.ParenthesisUnclosed | Parser.cs:346-348 | When the token after the inner expression is not `)`, the parenthesis fails with "Expected closing brace". |
| ParserFacts.KeywordAsVariable | Parser.cs:320-323 | Where an operand is expected, an Identifier token spelled `if` or `while` is a variable. |
| ParserFacts.MainAcceptsOnly | Parser.cs:310-328 | A main expression succeeds only at `(`, a Number or an Identifier token; at any other token it fails with "expected primary token". |
| ParserFacts.MinusRejected | Parser.cs:310-326 | There is no unary minus in the grammar: an expression starting with `-` fails with "expected primary token". |
| ParserFacts.NumberLiteral | Parser.cs:316-319 | A Number token parses to the literal whose value is the decimal value of its digits, consuming one token. |
| ParserFacts.LeadingZero | Parser.cs:220-226 | Leading zeros do not change a literal's value. |
| ParserFacts.TrailingCommaAccepted | Parser.cs:330-342 | `f(a,);` parses to one call statement with one argument. |
| ParserFacts.MissingCommaRejected | Parser.cs:330-342 | `f(a);` is rejected for the missing `,`. |
| ParserFacts.ArgumentsMissingComma | Parser.cs:332-335 | An argument that is not followed by `,` fails the argument list. |
| ParserFacts.PrimaryErrorPropagates | Parser.cs:228-276 | A failing primary fails the whole expression with the same error. |
| ParserFacts.StatementErrorPropagates | Parser.cs:133-162 | A statement whose expression fails fails the whole program with that error. |
| ParserFacts.AssignmentRejects | Parser.cs:161-190 | An expression never ends the array, and `=` after a non-variable or any token other than `=` and `;` is rejected with the matching error. |
| ParserFacts.ComparisonKeepsFirstOperator | Parser.cs:232-254 | Each further link of the chain takes the first operator, whatever operator token was read. |
| ParserFacts.MixedComparisonChain | Parser.cs:232-254 | `x op1 y op2 z` parses as `(x op1 y) op1 z`. |
| ParserFacts.VarSum | Parser.cs:256-273 | A variable followed by a token that cannot continue a sum is a whole sum. |
| ParserFacts.LessThenEqualsChain | Parser.cs:232-254 | `a < b == c;` parses as `(a < b) < c`. |
| ParserFacts.MissingSemicolonRejected | Parser.cs:294-308 | A program of one identifier fails on reading past the end, after its expression. |
| ParserFacts.CallsNest | Parser.cs:294-308 | `f()();` parses to a call of a call, with the first argument list innermost. |
| ParserFacts.UnclosedBlockRejected | Parser.cs:366-379 | `if (x) {` fails on reading past the end of input. |
| Printer.NatDigits | Parser.cs:220-226 | The printed digits of `n` are all decimal digits and read back as `n`. |
| Printer.MainNumber | Parser.cs:316-319 | A number token printed from `n` parses to the literal `n` and consumes one token. |
| Printer.MainVariable | Parser.cs:320-323 | An Identifier token parses to the variable of that name, keywords included. |
| Printer.MainParen | Parser.cs:312-315 | `(` expression `)` parses to the parenthesis around that expression. |
| Printer.PrimaryRoundTrip | Parser.cs:294-308 | A printed primary followed by a token that ends it parses back to itself. |
| Printer.ArgsRoundTrip | Parser.cs:330-342 | A printed argument list parses back to itself and consumes exactly its printed width. |
| Printer.ItemsRoundTrip | Parser.cs:336-339 | From any point of the argument loop, the printed remaining items and `)` parse back to the items. |
| Printer.ProductRoundTrip | Parser.cs:275-292 | A printed product followed by a token that ends it parses back to itself. |
| Printer.SumRoundTrip | Parser.cs:256-273 | A printed sum followed by a token that ends it parses back to itself. |
| Printer.ExprRoundTrip | Parser.cs:228-254 | A printed expression followed by a token that ends it parses back to itself, consuming exactly its printed width. |
| Printer.StmtRoundTrip | Parser.cs:133-153 | A printed statement parses back to itself. |
| Printer.ClauseRoundTrip | Parser.cs:192-212 | A printed `if`/`while` clause parses back to its condition and body. |
| Printer.BlockRoundTrip | Parser.cs:366-379 | From any point of the block loop, the printed remaining statements and `}` parse back to the statements. |
| Printer.StatementsRoundTrip | Parser.cs:354-364 | From any point of the top-level loop, the printed remaining statements parse back to them. |
| Printer.ProgramRoundTrip | Parser.cs:127-131 | Every well-formed program, printed to tokens, parses back to itself. |
| Printer.ParseRoundTrip | Parser.cs:86-92 | The same holds with the whitespace filter in front: the printer emits no whitespace token. |
| Printer.ExpressionRoundTrip | Parser.cs:228-254 | Every well-formed expression, printed and followed by `;`, parses back to itself and stops at the `;`. |
| Values.ClassOf | Program.cs:382-392 | Asking a value for its class fails exactly on the null reference, and the class tells numbers and Booleans apart. |
| Values.Display | Program.cs:120-170 | A value's text fails exactly on the null reference; a number's text is the formatter's text of it; a boolean's is `True` or `False`, nil's is `nil` and the print function's is `print`. |
| Values.CheckTypes | Program.cs:381-396 | The type check passes exactly when neither operand is null, both have the same class and that class is allowed. A null operand fails as a null dereference, and anything else is "incompatible types". |
| Values.Calculate | Program.cs:311-380 | A calculation succeeds exactly for two numbers under a number operator (except division by zero) or two numbers or two Booleans under `==`/`!=`. Its result has the operator's type, and an unknown operator fails as such. |
| Values.Arithmetic | Program.cs:313-352 | On two numbers only division by zero fails; `+ - * /` give numbers and the comparisons give Booleans. |
| Values.ArithmeticOnNumbers | Program.cs:313-342 | `+ - * / < >` on numbers compute the real-number operation. |
| Values.LessOrEqualIsLess | Program.cs:343-352 | `<=` and `>=` compute the same as `<` on all operands. |
| Values.LessOrEqualQuirk | Program.cs:343-352 | `2 <= 2` and `3 >= 2` are both false. |
| Values.NotEqualNegatesEqual | Program.cs:353-376 | `!=` succeeds exactly when `==` does and then gives the opposite answer; `==` compares by payload. |
| Values.EqualityReflexive | Program.cs:353-364 | Every number and Boolean equals itself; other values cannot be compared. |
| Values.MixedOperandsIncompatible | Program.cs:381-384 | A number and a Boolean never pass a type check, in either order. |
| Values.UnknownOperatorFirst | Program.cs:377-378 | An unknown operator fails whatever the operands are. |
| Values.NullOperandFails | Program.cs:381-384 | For a known operator, a null operand fails as a null dereference. |
| Evaluator.Eval | Program.cs:206-258 | An expression without calls prints nothing, and an evaluation can only fail at run time. |
| Evaluator.InitialState | Program.cs:191-199 | A fresh evaluator has printed nothing and binds exactly `true`, `false` and `print`, to true, false and the print function. |
| Evaluator.EvalCall | Program.cs:220-231 | A call keeps the output before it. It fails on a null callee, and fails as an unknown function when the callee's text is not bound. |
| Evaluator.EvalArgs | Program.cs:226-229 | On success there is one value per argument, and the i-th is the value of the i-th argument; a failure is a runtime error; arguments without calls print nothing. |
| EvaluatorFacts.ArgumentsInOrder | Program.cs:226-229 | Arguments are evaluated left to right. On success the output is every argument's output in order. On failure the error is that of the first failing argument, every earlier argument succeeded, and the output ends with that argument's own. |
| Evaluator.PrintLines | Program.cs:158-165 | Printing succeeds exactly when no argument is null, writing one line per argument, its display text. A null argument stops it after the lines before it. |
| Evaluator.ExecStmt | Program.cs:260-298 | A statement only appends to the output, never removes a binding, and can only fail at run time. |
| Evaluator.ExecBlock | Program.cs:290-294 | A statement list keeps the same three guarantees. |
| Evaluator.WhileLoop | Program.cs:283-287 | The loop keeps them too, and when it ends normally its condition evaluates to false in the final environment. |
| Evaluator.RunProgram | Program.cs:290-302 | A run keeps the initial bindings and can only fail at run time. |
| EvaluatorFacts.ExecStmtFuel | Program.cs:260-298 | More fuel never changes the outcome of a statement that did not run out of fuel. |
| EvaluatorFacts.ExecBlockFuel | Program.cs:290-294 | More fuel never changes the outcome of a statement list that did not run out of fuel. |
| EvaluatorFacts.WhileLoopFuel | Program.cs:283-287 | More fuel never changes the outcome of a loop that did not run out of fuel. |
| EvaluatorFacts.WhileIterate | Program.cs:283-287 | With a true condition the loop runs the body once and, if the body ended normally, the loop again. |
| EvaluatorFacts.RunFuel | Program.cs:290-302 | A run that finished finishes the same way with any larger bound. |
| EvaluatorFacts.EvalReadsFreeVars | Program.cs:206-258 | An expression without calls depends only on the bindings of the variables it reads. |
| EvaluatorFacts.ParenTransparent | Program.cs:233-235 | `(E)` evaluates exactly as `E`. |
| EvaluatorFacts.VariableLookup | Program.cs:212-218 | A variable evaluates to its binding, or fails with "no such variable". |
| EvaluatorFacts.LeftOperandFirst | Program.cs:237-244 | The left operand is evaluated first, and its failure is the result. Otherwise the output is the left operand's then the right's, and the result is the Calculator's. |
| EvaluatorFacts.PrintCall | Program.cs:220-231 | Calling print on non-null values returns null and writes `PRINT:` followed by one display line per value. |
| EvaluatorFacts.HeaderThenLines | Program.cs:158-165 | `PRINT:` followed by the display lines of non-null values is one line per value, in order, and the result is null. |
| EvaluatorFacts.PrintCallLines | Program.cs:158-165 | The output of a print call is `PRINT:` followed by the lines of its arguments. |
| EvaluatorFacts.CallKeyIsDisplay | Program.cs:220-224 | The function is looked up under the callee value's text: an unbound text fails as an unknown function, and a bound one with an absent list fails as a null dereference. |
| EvaluatorFacts.AliasCallsPrint | Program.cs:220-231 | While `print` is bound to the print function, a call through any other variable bound to it behaves exactly as the call `print(...)`. |
| EvaluatorFacts.CallOnBoolean | Program.cs:220-224 | `true(...)` looks up the key `True`, which is unbound, and fails as an unknown function. |
| EvaluatorFacts.EmptyArgumentsFail | Program.cs:226-228 | `print()` has an absent argument list and fails as a null dereference. |
| EvaluatorFacts.CallOnNonFunction | Program.cs:226-230 | A bound key whose value is not the print function fails as a null dereference after its arguments ran. |
| EvaluatorFacts.InitialBindings | Program.cs:191-199 | The initial environment binds exactly `true`, `false` and `print`, to the two Booleans and the print function. |
| EvaluatorFacts.AssignFrame | Program.cs:260-266 | An assignment fails exactly when its value fails. Otherwise it binds the target to the value, adds no other name, leaves every other binding unchanged and appends only the value's output. |
| EvaluatorFacts.AssignTwice | Program.cs:260-266 | `x = E; x = E;` ends as `x = E;` when `E` has no call and does not read `x`. |
| EvaluatorFacts.IfFalse | Program.cs:268-277 | A false condition changes nothing but the output of the condition. |
| EvaluatorFacts.IfTrue | Program.cs:268-277 | A true condition runs the body once. |
| EvaluatorFacts.ConditionNotBoolean | Program.cs:268-282 | An `if` or `while` condition that is not a Boolean fails before the body runs. |
| EvaluatorFacts.WhileExit | Program.cs:279-288 | A `while` statement that ends normally ends on a condition that evaluates to false. |
| EvaluatorFacts.WhileChecksConditionTwice | Program.cs:279-283 | A loop whose condition is false at once evaluates it twice, so its output appears twice. |
| EvaluatorFacts.WhileLaterConditionNotBoolean | Program.cs:283 | A condition that is no longer a Boolean before an iteration fails as a null dereference. |
| EvaluatorFacts.CountingLoop | Program.cs:279-288 | `while (i < n) { i = i + 1; }` from `i == k <= n` ends with `i == n` and prints nothing. |
| EvaluatorFacts.CountToThree | Program.cs:290-302 | `i = 0; while (i < 3) { i = i + 1; }` ends with `i == 3` and no output. |
| Interpreter.Interpret | Parser.cs:86-88 | A lexing or parsing failure stops the pipeline before anything runs and leaves no output. |
| Interpreter.EmptySource | Parser.cs:354-359 | The empty source ends at once with the initial environment. |
| Interpreter.InterpretPrinted | Parser.cs:86-88 | A source whose non-whitespace tokens are the printed form of a well-formed program runs that program. |
| Interpreter.PrintOneTokens | Lexer.cs:65-69 | The source text `print(1,);` lexes to `print`, `(`, `1`, `,`, `)`, `;`. |
| Interpreter.PrintOne | Program.cs:158-165 | The source text `print(1,);` prints `PRINT:` and the text of 1, and binds nothing new. |

## Left out

- `Program.Main` is the demo driver that runs one fixed program. It is not modelled.
- Console output is modelled as the list of printed lines in the state.
- Numbers are real numbers, not IEEE doubles.
  - Rounding, overflow, infinities and NaN are not modelled.
  - A division by zero, whose double result is an infinity or NaN, is reported as the failure `NonFiniteArithmetic`.
- `double.Parse` of a number literal is modelled as the exact value of its digits.
- A number's display text depends on the culture's number format. It is the parameter `fmt`.
- The regular-expression class `\w` is restricted to ASCII letters, digits and `_`. In .NET it also holds every other Unicode letter, nonspacing mark, decimal digit and connector punctuation character. The class `\s` is modelled in full: `IsWhitespace` holds every character .NET counts as white space.
- The lexer's regular-expression engine is replaced by one matcher per token class. Each matcher returns the length of its match at the cursor.
- The source's lazy token enumeration is drained by the parser's constructor before parsing starts, so the model lexes the whole source first.
- Exception messages are modelled as error constructors, not texts.
- A `while` loop that never stops is modelled as running out of fuel. Each statement and each iteration costs one unit.
- The branch of `parse_assignment` for a `(` after the expression (Parser.cs:174-181) is not modelled: it is unreachable, since an expression never stops at `(`.
- The `null` return of `parse_statement` at the end of input (Parser.cs:135-137) is unreachable from both of its callers.
- The `null` right operand of `visit_binary_op` (Program.cs:238-240) is not modelled: the parser never builds it.
- The call-as-target branch of `visit_assignment` (Program.cs:261-264) is not modelled: the parser builds only variable targets.
- `visit_expression` (Program.cs:246-248) is never called.
- The `Operator` and `None` token kinds and the fall-through `new Token()` (Lexer.cs:63) are never produced.
- `Token.ToString` (Lexer.cs:86-88) is not modelled. It is used only for debugging.
- The commented-out code (Parser.cs:381-397, Program.cs:172-188) is not modelled.
- Lexer.MatchString: its contract gives only the shape of a match. How far the match reaches is stated by `Lexer.StringMatch` and `Lexer.VerbatimStringMatch`. Those facts are lemmas because every lexer proof unfolds the matchers.
- Lexer.QuotedTail: likewise, the extent of the match is stated by `Lexer.QuotedTailMatch`.
- Parser.ParseParenthesis: its contract gives only the success shape. The exact result on both branches is stated by `ParserFacts.ParenthesisClosed` and `ParserFacts.ParenthesisUnclosed`, because the printer's proofs unfold this function.
- Printer.ProgramRoundTrip: the round trip is stated only for trees whose variables are not named `if` or `while`. The parser does build such a variable after the start of a statement (`x = if;`), but at the start of a statement the same word is read as a keyword.
- AssignTwice: requires that `E` does not read `x`. Without that, `x = x + 1;` twice is not the same as once.
- Unary minus is evaluated (Program.cs:250-258), but the parser never builds it.
