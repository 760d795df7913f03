# calculator_rust in Dafny

A model of the expression pipeline of the `calculator_rust` command-line
calculator. The pipeline has three parts:

- **Token model** (`src/token.rs`). The token enum, its classification, precedence and associativity predicates, and `Token::evaluate`, one step of the postfix stack machine.
- **Lexer** (`src/lexer.rs`). Its `tokennize` loop turns a string into infix tokens. It keeps a number buffer and an identifier buffer, and a mode flag for each.
- **Parser** (`src/parser.rs`). It owns the lexer and holds the result of each stage. `shunt` is Dijkstra's shunting-yard conversion to postfix. `evaluate` runs the postfix tokens on a value stack.

The program in `src/main.rs` chains these stages on the compound-interest
expression `1*(1+1/999)^(999*1)` and reads the bottom of the stack.

Modelling choices:

- An `f64` value is a term of the datatype `Floats.F64`. It records which operation was applied to which operands, so the properties are about operands and their order, not rounding. Literals carry their exact decimal value.
- `str::parse::<f64>` is modelled on the only texts the lexer hands it, runs of digits and points. It succeeds exactly when the text has at most one point and at least one digit.
- The lexer and the parser use `Token::Comma`, but the enum in `src/token.rs` lacks it. The model adds `Comma` to `Tokens.Token`.
- The panics a reachable input can trigger become error values:
  - `panic!` in `parse_function` (`src/lexer.rs:29`) becomes `Lexing.LexError.InvalidFunction` of the unknown name.
  - `parse::<f64>().unwrap()` on the number buffer (`src/lexer.rs:70`, `:86`, `:95`) becomes `Lexing.LexError.InvalidNumber` of that buffer.
  - `op.precedence().unwrap()` on a function token on top of the operator stack (`src/parser.rs:89`) becomes `Parsing.ShuntError.MissingPrecedence` of that function.
  - `p.stack[0]` on an empty stack (`src/main.rs:13`) becomes `None` in `MainProgram.CompoundInterest`, whose contract shows it does not happen for the program's text.
- The other panics are unreachable, and the model shows why:
  - "both modes at once" (`src/lexer.rs:75`, `:99`): `Lexing.Valid` rules out both modes. `Feed` and `Scan` ensure they keep it, and `Flush` requires it.
  - `panic!` in `parse_op` (`src/lexer.rs:42`): `Feed` calls `ParseOp` only on a character for which `IsSymbol` holds, and `ParseOp` ensures it succeeds exactly on those.
  - `panic!` in the function arm and the operator arm of `Token::evaluate` (`src/token.rs:95`, `:118`): `Tokens.EvaluateUnary` and `Tokens.EvaluateBinary` require `IsUnary` and `IsBinary`. `Apply1` and `Apply2` match every token those admit.
  - `tok.precedence().unwrap()` and `tok.associativity().unwrap()` (`src/parser.rs:89-90`): the arm runs only for an operator, and `Parsing.PopsBefore` and `Parsing.PopOperators` require `IsOperator(tok)`.
  - `operator_stack.pop().unwrap()` (`src/parser.rs:63`, `:94`, `:118`): each follows a check that the stack is not empty. In `Parsing.Parser.Shunt` each loop tests `operatorStack != []` before taking the top.
- Vectors are sequences with the top of a stack last.
- `Lexing.Lexer` and `Parsing.Parser` are classes whose methods update their fields. The builder methods that take and return `self` become methods that update the object in place.
- `Token::evaluate` mutates a `&mut Vec<f64>`. Its model `Tokens.Evaluate` takes the stack and returns the new one.
- Each loop (`tokennize`, `shunt`, `evaluate`) is a method with a `while` loop. Each is proved equal to a function: `Lexing.Lex`, `Parsing.ShuntingYard` or `Parsing.Run`. `Token::evaluate` has no loop; `Tokens.Evaluate`, with its pops and pushes in `Tokens.EvaluateBinary` and `Tokens.EvaluateUnary`, is proved equal to `Tokens.Step`. The properties are proved about those functions.
- `Lexing.Feed`, `Lexing.Lex` and `Lexing.Lexer.Tokenize` follow the loop as written. When the loop leaves one mode for the other, it flushes that mode's buffer but does not empty it (see "## Findings").
- The intended loop, which empties that buffer, is `ModeSwitches.ResetFeed` / `ModeSwitches.ResetLex`. It is used only to state the findings. The two loops agree on every text without identifier characters (`ModeSwitches.LexAgreesWithoutNames`), among them the text of `src/main.rs` (`MainProgram.ProgramLexedAlike`).

Behaviour of the source that the model keeps:

- An unmatched `)` or `(` is no error. A `)` with no `(` empties the operator stack into the output. A `(` left on the stack is drained into the output, where evaluation skips it.
- The final stack depth is not checked.
- The only function names are the six of `parse_function`; there are no constants such as `pi` or `inf`.
- A function token on top of the operator stack has no precedence. An operator arriving over it makes `shunt` fail.
- The `Comma` arm of the parenthesis match in `shunt` is unreachable: `is_paren` is false for a comma, so commas take the earlier branch.

## Model

| member | source | states |
|---|---|---|
| Tokens.IsParen | src/token.rs:20-26 | definition; see the lemma ClassesExclusive |
| Tokens.IsFunction | src/token.rs:27-33 | definition; see the lemma ClassesExclusive |
| Tokens.IsOperator | src/token.rs:34-40 | definition; see the lemma ClassesExclusive |
| Tokens.ClassesExclusive | src/token.rs:21-41 | paren, function and operator are disjoint classes; a token is in none exactly when it is a number or a comma |
| Tokens.Precedence | src/token.rs:42-54 | defined exactly on operators: 1 for `+ -`, 2 for `* /`, 3 for `^` |
| Tokens.Associativity | src/token.rs:55-66 | defined exactly on operators; right-associative exactly for `^` |
| Tokens.Step | src/token.rs:67-128 | a step fails exactly when the stack holds fewer values than the token pops, and then leaves it empty; on success it keeps the values below the operands and pushes the token's count of results |
| Tokens.StepBinary | src/token.rs:71-117 | `min max` (lines 71-78) and `+ - * / ^` (lines 97-117) map `s ++ [a, b]` to `s ++ [op(a, b)]`: the value popped second is the left operand |
| Tokens.StepUnary | src/token.rs:79-94 | `sin cos tan sqrt` replace the top value by its image |
| Tokens.StepNumber | src/token.rs:120-124 | a number is pushed |
| Tokens.StepNeutral | src/token.rs:120-124 | parentheses and commas, neither function nor operator nor number, leave the stack as it is and succeed |
| Tokens.Pop | src/token.rs:72 | `Vec::pop`: `None` on the empty stack, else the last value and the rest |
| Tokens.EvaluateBinary | src/token.rs:97-117 | the two pops and the push of a binary token compute Step |
| Tokens.EvaluateUnary | src/token.rs:79-94 | the pop and the push of a unary token compute Step |
| Tokens.Evaluate | src/token.rs:67-128 | `Token::evaluate` computes Step: the success flag and the new stack |
| Floats.ParseF64 | src/lexer.rs:70 | `parse::<f64>` on digit-and-point text succeeds exactly on decimals (at most one point, at least one digit), giving a literal |
| Floats.ParseWhole | src/lexer.rs:70 | a digit run reads as the integer it spells in base ten |
| Floats.ParseFraction | src/lexer.rs:70 | `w.f` reads as w plus f over ten to the number of digits of f |
| Lexing.ParseFunction | src/lexer.rs:21-31 | succeeds exactly on the six names `max min sin cos tan sqrt`, giving a function token |
| Lexing.ParseOp | src/lexer.rs:32-44 | succeeds exactly on the eight symbols `+-/*^(),`, giving an operator, parenthesis or comma |
| Lexing.ParseOpInjective | src/lexer.rs:32-44 | distinct symbols give distinct tokens |
| Lexing.Flush | src/lexer.rs:94-101 | the final flush emits one token when a mode is on and none otherwise. A number flush succeeds exactly on a decimal buffer and emits that buffer's number; otherwise it fails with InvalidNumber of the buffer. A name flush succeeds exactly on one of the six names and emits its function token; otherwise it fails with InvalidFunction of the buffer |
| Lexing.Feed | src/lexer.rs:57-92 | one loop iteration keeps the scanner out of both modes at once |
| Lexing.Scan | src/lexer.rs:54-93 | the loop keeps the scanner out of both modes at once |
| Lexing.Lex | src/lexer.rs:46-104 | definition: the loop from the empty scanner, then the final flush; see the lemmas LexStructural, LexSymbolSplit, LexNumber, LexName and the method Lexer.Tokenize |
| Lexing.LexEmpty | src/lexer.rs:46-104 | the empty input lexes to no tokens |
| Lexing.ScanAppend | src/lexer.rs:54-93 | scanning `a + b` scans a, then b from where a ended; the first error stops the scan |
| Lexing.SpaceInvisible | src/lexer.rs:58 | removing a space anywhere in the input leaves the result unchanged |
| Lexing.SymbolStep | src/lexer.rs:67-83 | a symbol succeeds exactly when the pending buffer flushes; it then appends the flushed token and the symbol's token, empties both buffers and leaves both modes |
| Lexing.DigitStep | src/lexer.rs:59-66 | a digit or point fails exactly when it ends an unknown name; it flushes a pending name but keeps its text in the identifier buffer, enters number mode and appends c to whatever the number buffer holds |
| Lexing.IdentifierStep | src/lexer.rs:84-91 | any other character fails exactly when it ends a non-decimal number; it flushes a pending number (emitting exactly its value) but keeps its text in the number buffer, enters identifier mode and appends c to whatever the identifier buffer holds |
| Lexing.PoisonedFlushFails | src/lexer.rs:21-31 | an identifier buffer holding a character of no function name cannot be flushed |
| Lexing.PoisonedScan | src/lexer.rs:54-93 | once the identifier buffer holds such a character, it keeps it until its flush |
| Lexing.ForeignCharacterRejected | src/lexer.rs:84-91 | any input holding a character outside the lexer's alphabet fails |
| Lexing.SymbolTokens | src/lexer.rs:67-83 | definition: the `parse_op` tokens of the text's symbols, in order, all operators, parentheses or commas; the reference that LexStructural compares the lexer's output against |
| Lexing.FeedAddsNoStructural | src/lexer.rs:58-91 | a step on a non-symbol only appends numbers or function tokens |
| Lexing.FeedSymbolStructural | src/lexer.rs:67-83 | a symbol step adds exactly its own token to the operators, parentheses and commas emitted |
| Lexing.FeedOtherStructural | src/lexer.rs:58-91 | a step on a space, digit, point or identifier character adds none of them |
| Lexing.FeedStructural | src/lexer.rs:57-92 | a step adds exactly the symbol tokens of its character to them |
| Lexing.ScanStructural | src/lexer.rs:54-93 | the loop adds exactly the symbol tokens of the input |
| Lexing.LexStructural | src/lexer.rs:46-104 | a successful lex emits each symbol of the input as one operator, parenthesis or comma, in input order |
| Lexing.FeedPrefix | src/lexer.rs:57-92 | a step never reads the tokens already emitted |
| Lexing.ScanPrefix | src/lexer.rs:54-93 | the loop never reads the tokens already emitted |
| Lexing.LexSymbolSplit | src/lexer.rs:67-83 | a symbol is a token boundary: lexing `a c b` gives the tokens of a, then c's token, then the tokens of b |
| Lexing.ScanNumberRun | src/lexer.rs:59-66 | in number mode a run of digits and points only grows the number buffer |
| Lexing.LexNumber | src/lexer.rs:59-66 | a digit-and-point run lexes to its one number, or fails as InvalidNumber when it is no decimal |
| Lexing.ScanNameRun | src/lexer.rs:84-91 | in identifier mode a run of identifier characters only grows the identifier buffer |
| Lexing.LexName | src/lexer.rs:84-91 | an identifier run lexes to its function token, or fails as InvalidFunction |
| Lexing.Lexer.constructor | src/lexer.rs:7-13 | `Lexer::default` holds the empty text |
| Lexing.Lexer.SetText | src/lexer.rs:16-19 | `string` replaces the text |
| Lexing.Lexer.Tokenize | src/lexer.rs:46-104 | the `tokennize` loop computes Lex of the text |
| ModeSwitches.ConcatenatedNames | src/lexer.rs:21-31 | a function name with any text after it is no function name |
| ModeSwitches.StaleFirstNumber | src/lexer.rs:59-66 | as written, a leading digit run fills the number buffer |
| ModeSwitches.StaleFirstName | src/lexer.rs:84-91 | as written, a leading name fills the identifier buffer |
| ModeSwitches.StaleNameAfterNumber | src/lexer.rs:84-91 | as written, a name after a number flushes the number and grows the identifier buffer from the text it still holds |
| ModeSwitches.StaleNumberAfterName | src/lexer.rs:59-66 | as written, a number after a name flushes the name and grows the number buffer from the text it still holds |
| ModeSwitches.StaleNumberThenName | src/lexer.rs:59-91 | as written, `w n` leaves w in the number buffer while reading n |
| ModeSwitches.StaleNameThenNumber | src/lexer.rs:59-91 | as written, `n w` leaves n in the identifier buffer while reading w |
| ModeSwitches.StaleNumberNameNumberScan | src/lexer.rs:54-93 | as written, after `w1 n w2` the number buffer holds `w1 w2` |
| ModeSwitches.StaleNumberNameNumber | src/lexer.rs:46-104 | as written, `w1 n w2` lexes to w1, n, and the number of `w1 w2` |
| ModeSwitches.StaleNameNumberNameScan | src/lexer.rs:54-93 | as written, after `n1 w n2` the identifier buffer holds `n1 n2` |
| ModeSwitches.StaleNameNumberName | src/lexer.rs:46-104 | as written, `n1 w n2` fails as InvalidFunction of `n1 n2` |
| ModeSwitches.ResetFeed | src/lexer.rs:57-92 | intended: the step that empties the buffer it leaves keeps the scanner out of both modes at once |
| ModeSwitches.ResetScan | src/lexer.rs:54-93 | intended: the intended loop, from a state in at most one mode, never leaves the scanner in both modes at once |
| ModeSwitches.ResetFeedAgrees | src/lexer.rs:59-91 | the step as written and the intended step fail alike and emit alike; they differ only in the text left in the buffer whose mode is left |
| ModeSwitches.ResetFeedKeepsTidy | src/lexer.rs:57-92 | intended: a step keeps every buffer of a mode that is off empty |
| ModeSwitches.ResetScanKeepsTidy | src/lexer.rs:54-93 | intended: the whole loop keeps every buffer of a mode that is off empty |
| ModeSwitches.ScansAgreeWithoutNames | src/lexer.rs:54-93 | from a state outside identifier mode, the loop as written and the intended loop scan a text without identifier characters alike |
| ModeSwitches.LexAgreesWithoutNames | src/lexer.rs:46-104 | `tokennize` as written and the intended lexer agree on every text without identifier characters |
| ModeSwitches.ResetScanAppend | src/lexer.rs:54-93 | intended: scanning splits over concatenation |
| ModeSwitches.ResetNumberRun | src/lexer.rs:59-66 | intended: a digit run in number mode grows the number buffer |
| ModeSwitches.ResetNameRun | src/lexer.rs:84-91 | intended: an identifier run in identifier mode grows the identifier buffer |
| ModeSwitches.FirstNumber | src/lexer.rs:59-66 | intended: a leading digit run fills the number buffer |
| ModeSwitches.FirstName | src/lexer.rs:84-91 | intended: a leading name fills the identifier buffer |
| ModeSwitches.NameAfterNumber | src/lexer.rs:84-91 | intended: a name after a number flushes the number and starts an empty identifier buffer |
| ModeSwitches.NumberAfterName | src/lexer.rs:59-66 | intended: a number after a name flushes the name and starts an empty number buffer |
| ModeSwitches.NumberThenName | src/lexer.rs:59-91 | intended: `w n` emits w and holds exactly n |
| ModeSwitches.NameThenNumber | src/lexer.rs:59-91 | intended: `n w` emits n and holds exactly w |
| ModeSwitches.NumberNameNumberScan | src/lexer.rs:54-93 | intended: after `w1 n w2` the number buffer holds exactly w2 |
| ModeSwitches.NumberNameNumber | src/lexer.rs:46-104 | intended: `w1 n w2` lexes to w1, n, w2 |
| ModeSwitches.NameNumberNameScan | src/lexer.rs:54-93 | intended: after `n1 w n2` the identifier buffer holds exactly n2 |
| ModeSwitches.NameNumberName | src/lexer.rs:46-104 | intended: `n1 w n2` lexes to n1, w, n2 |
| Parsing.PopArguments | src/parser.rs:58-66 | the comma loop moves the top of the operator stack to the output, top first, up to and excluding the topmost `(` or comma, which stays |
| Parsing.PopGroup | src/parser.rs:73-81 | the `)` loop moves everything above the topmost `(` to the output and drops that `(`; with no `(` it moves the whole stack |
| Parsing.GroupClosed | src/parser.rs:73-81 | on `below ( inner` with no `(` in inner, `)` leaves below and outputs inner reversed |
| Parsing.PopsBefore | src/parser.rs:89-90 | definition: the top operator goes first when its precedence is at least the new operator's and the new operator is left-associative; see PopOperators, PowPopsNothing and the associativity scenarios |
| Parsing.PopOperators | src/parser.rs:85-98 | the operator loop moves a suffix of operators that the new operator yields to, stopping at a parenthesis or an operator it does not yield to. It fails only when, after popping such operators, it reaches a function token, and the error names that token |
| Parsing.NumberToOutput | src/parser.rs:68 | a number goes straight to the output |
| Parsing.PushedToStack | src/parser.rs:56 | functions and `(` are pushed onto the operator stack |
| Parsing.OperatorPushed | src/parser.rs:85-98 | an operator over an empty stack, a parenthesis, or an operator it does not yield to is pushed with nothing moved |
| Parsing.PowPopsNothing | src/parser.rs:89-90 | `^` pops nothing (it is right-associative) but still fails on a function top |
| Parsing.FunctionOnTopFails | src/parser.rs:89 | an operator arriving over a function token fails with MissingPrecedence of that function |
| Parsing.ShuntStep | src/parser.rs:55-99 | definition: the dispatch of one input token on (is_operator, is_function, is_paren); see the lemmas NumberToOutput, PushedToStack, OperatorPushed, FunctionOnTopFails and StepKeeps |
| Parsing.ShuntFrom | src/parser.rs:53-115 | definition: the main loop, ending at the first error; see the lemma ShuntFromKeeps |
| Parsing.ShuntingYard | src/parser.rs:30-137 | definition: the main loop from empty stacks, then the drain of the operator stack; see the lemmas ShuntedTokens, ShuntedMeaning, ShuntedNumbers, ShuntedParens and the method Parser.Shunt |
| Parsing.MoveKeeps | src/parser.rs:86-96 | moving a stack suffix without `(` to the output keeps the stack invariant, the numbers in order, the meaning tokens and the `(` count |
| Parsing.StepKeeps | src/parser.rs:55-99 | every successful main-loop step keeps the invariant and adds the token's numbers and meaning without loss or duplication |
| Parsing.ShuntFromKeeps | src/parser.rs:53-115 | the main loop keeps those facts over the whole input |
| Parsing.ShuntedTokens | src/parser.rs:30-137 | a successful conversion outputs only numbers, operators, functions and unclosed `(`: never a `)` or a comma |
| Parsing.ShuntedMeaning | src/parser.rs:30-137 | every number, operator and function of the input is output exactly once |
| Parsing.ShuntedNumbers | src/parser.rs:30-137 | the numbers are output in input order |
| Parsing.ShuntedParens | src/parser.rs:116-119 | the output holds as many `(` as the input leaves unclosed, all after the last number |
| Parsing.Run | src/parser.rs:152-166 | definition: Step applied to each token in turn, with a failed step's stack carried on; see the lemmas RunAppend, RunPostfix and the method Parser.Evaluate |
| Parsing.RunAppend | src/parser.rs:152-166 | evaluating a concatenation evaluates its parts in turn |
| Parsing.RunPostfix | src/parser.rs:152-166 | evaluating the postfix form of an expression tree pushes its value, with each operator applied to its left and right operands in order |
| Parsing.Parser.constructor | src/parser.rs:11-18 | a new parser has a fresh empty lexer and empty token lists and stack |
| Parsing.Parser.Input | src/parser.rs:20-23 | `input` sets the lexer's text |
| Parsing.Parser.Tokenize | src/parser.rs:25-28 | on success the infix tokens become Lex of the text; a lexer failure is returned and changes nothing |
| Parsing.Parser.Shunt | src/parser.rs:30-137 | on success the postfix tokens become ShuntingYard of the infix tokens; a failure is returned and changes nothing |
| Parsing.Parser.Evaluate | src/parser.rs:138-168 | the stack becomes Run of the postfix tokens from the stack it held, which is not cleared first |
| ScenarioResults.MainShapeShunted | src/parser.rs:30-137 | `a*(b+c/d)^(e*f)` converts to `a b c d / + e f * ^ *` |
| ScenarioResults.MainTreeValue | src/token.rs:67-128 | the tree of that expression is well formed and means `a * (b + c/d)^(e * f)` |
| ScenarioResults.MainShapeEvaluated | src/parser.rs:138-168 | evaluating that postfix form leaves exactly `a * (b + c/d)^(e * f)` |
| ScenarioResults.PowerRightAssociative | src/parser.rs:89-90 | `x^y^z` converts to `x y z ^ ^`, that is `x^(y^z)` |
| ScenarioResults.MinusLeftAssociative | src/parser.rs:89-90 | `x-y-z` converts to `x y - z -`, that is `(x-y)-z` |
| ScenarioResults.UnclosedGroupShunted | src/parser.rs:116-119 | `(x+y` converts without error; the `(` is drained into the output |
| ScenarioResults.UnclosedGroupEvaluated | src/token.rs:120-124 | evaluation passes over that `(` and leaves `x + y` |
| ScenarioResults.OperatorStopsAtGroup | src/parser.rs:85-98 | over `sqrt ( *`, a `+` pops the `*` and stops at the `(`, so the function below it is never reached |
| ScenarioResults.FunctionBeforeOperatorFails | src/parser.rs:89 | `sqrt(x)+y` fails with MissingPrecedence of `sqrt` |
| ScenarioResults.MissingOperandEmpties | src/token.rs:98-101 | an operator short of an operand empties the stack |
| LexingScenarios.DoublePointRejected | src/lexer.rs:70 | `1..2` fails as InvalidNumber |
| LexingScenarios.FunctionNameRead | src/lexer.rs:21-31 | `sqrt` lexes to the one token Sqrt |
| LexingScenarios.UnknownNameRejected | src/lexer.rs:29 | `foo(1)` fails as InvalidFunction of `foo` |
| LexingScenarios.TwelveRead | src/lexer.rs:59-66 | `12` lexes to the number 12 |
| MainProgram.AfterDigits | src/lexer.rs:59-83 | digits, a symbol, then text b lex to the number, the symbol's token and the tokens of b |
| MainProgram.AfterSymbol | src/lexer.rs:67-83 | a leading symbol lexes to its token, then the tokens of what follows |
| MainProgram.MainTextLexed | src/main.rs:9 | any text `w1*(w2+w3/w4)^(w5*w6)` with digit runs lexes to the fifteen tokens of that shape, each run one number |
| MainProgram.ProgramLexed | src/main.rs:9 | the program's text lexes to that shape with the numbers 1, 1, 1, 999, 999, 1 |
| MainProgram.ProgramLexedAlike | src/main.rs:9 | the program's text lexes alike under the loop as written and the intended loop that empties the buffer it leaves |
| MainProgram.Calculate | src/main.rs:8-12 | the builder chain on any text leaves the stack Run(ShuntingYard(Lex(text))) from empty, or the first stage error |
| MainProgram.ProgramCalculated | src/main.rs:8-12 | on the program's text the chain leaves exactly `1 * (1 + 1/999)^(999 * 1)` on the stack |
| MainProgram.CompoundInterest | src/main.rs:8-13 | `main` reads the compounded term from the bottom of the stack |

## Left out

- Floating-point arithmetic and rounding: an `f64` is the term of its operations. Division by zero, NaN and infinities are not interpreted.
- `Floats.ParseF64`: only the texts the lexer can hand it (digits and points) are modelled. Exponents, signs, `inf` and `nan` never reach it.
- Floats.ParseF64: the value is the exact decimal, not its nearest `f64`.
- The `println!` tracing tables in `shunt` and `evaluate`, the final `println!` in `main`, and the `Display` impl of tokens: output only.
- Ownership: the builder methods move `self`. The model updates the object in place, which gives the same final state because no other reference exists.
- `MainProgram.CompoundInterest`: the bottom of the stack is returned rather than printed. `None` stands for the panic of `p.stack[0]` on an empty stack, which the contract shows does not happen.
- Errors for unbalanced parentheses and for a final stack depth other than one: the source has neither. An underflow in `evaluate` is ignored, as in the source.

## Findings

| source | as written | input that shows it | evidently intended | confidence | as-written member | corrected member |
|---|---|---|---|---|---|---|
| src/lexer.rs:84-91 | leaving number mode for a name flushes the number but keeps its text in `num_stack` | `1sin2` lexes as `1 sin 12` | a new number starts from an empty buffer: `1 sin 2` | high; proved on the model, not executed | ModeSwitches.StaleNumberNameNumber | ModeSwitches.NumberNameNumber |
| src/lexer.rs:59-66 | leaving identifier mode for a number flushes the name but keeps its text in `fnc_stack` | `sin1cos` fails as the unknown function `sincos` | a new name starts from an empty buffer: `sin 1 cos` | high; proved on the model, not executed | ModeSwitches.StaleNameNumberName | ModeSwitches.NameNumberName |

The rest of the model follows the loop as written. The intended loop is defined beside it in `ModeSwitches` to state each corrected half. `ModeSwitches.LexAgreesWithoutNames` shows the two agree on every text without identifier characters. `MainProgram.ProgramLexedAlike` applies it to the program of `src/main.rs`.
