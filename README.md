# Lox front end: scanner and parser

This project models the front end of a C# interpreter for the Lox language:

- the **scanner** turns a source string into tokens;
- the **recursive-descent parser** turns tokens into statement and expression trees;
- the **syntax-tree types** and the **token** type are modelled with the renderings their `ToString` methods give.

The model follows the code as written, including its quirks:

- `!=` scans as `Equal` rather than `BangEqual`.
- `break` is missing from the keyword table, so it scans as an identifier.
- `%`, `?` and `:` have no case in the scanner.
- An unexpected character throws before the report line that follows the `throw` can run, so nothing is reported.
- `Comparison` and `Factor` parse two operands before their loop. They then reuse the second operand as the right side of every operator they match. `Comparison` starts its second operand at whatever token follows the first one.
- `Unary` discards the operator and its operand, then returns a fresh `Primary()`.
- The "Missing left-hand operand." error productions in `Primary` report, parse a sub-expression and return null.
- `Consume` throws without reporting.

## Layout

| module | file | contents |
|---|---|---|
| `Results` | `results.dfy` | `Option` and `Result` |
| `Diagnostics` | `diagnostics.dfy` | the error log: a report at a line (scanner) or at a token (parser) |
| `Tokens` | `tokens.dfy` | `TokenType`, the literal `Value`, `Token` and `Token.ToString` |
| `Expressions` | `expressions.dfy` | the ten expression variants, visitor dispatch and `ToString` |
| `Statements` | `statements.dfy` | the ten statement variants, visitor dispatch and `ToString` |
| `ScanSpec` | `scan_spec.dfy` | the reference scanner: one scan step as a function of position and line, and a whole pass |
| `Scanning` | `scanner.dfy` | the `Scanner` class, with fields `start`, `current`, `line` and `tokens` updated in place; every method is proved against `ScanSpec` |
| `ScanFacts` | `scan_facts.dfy` | properties of scanning: lexemes, order, lines, `Eof`, each token rule |
| `ParseSpec` | `parse_spec.dfy` | the reference parser: each parse method as a function from a parser state to a result and the next state |
| `Parsing` | `parser.dfy` | the `Parser` class, with fields `current` and `loopDepth` updated in place; every method is proved to compute its `ParseSpec` twin |
| `ParseFacts` | `parse_facts.dfy` | properties of parsing: recovery, `break`, the parameter cap, associativity, assignment, `for` desugaring, the quirks |
| `TreeFacts` | `tree_facts.dfy` | properties of the tree renderings and the visitor dispatch |

### How the pieces fit

**Exceptions become results.** A C# exception becomes the `Failure` of a `Result`, or the `Err` of a `ParseSpec.Parsed`. `Err` carries the state the parser had reached when it threw.

**The error handler is a log.** The error handler (`Program.Error` in the scanner, `ErrorHandler.Error` in the parser) becomes a ghost log `reports`, and every call appends one entry.

**Null children are options.** Every null child is an `Option`:

- the `var` initializer;
- the `else` branch;
- the `for` clauses;
- the `return` value;
- an operand that an error production nulled;
- the entry for a failed declaration.

**Each class is proved against a function.** A method's `ensures` ties its outcome and new state to a function of the old state, in `ScanSpec` or `ParseSpec`. Lemmas about those functions then state what the source promises. Recursion terminates on `(remaining tokens, precedence rank)`.

## Model

| member | source | states |
|---|---|---|
| Tokens.ToString | CraftInterpreter.Lox/Token.cs:21-24 | without a literal the text is exactly the type name, a space and the lexeme; with one it is the type name, the lexeme and the literal's text, separated by single spaces |
| Tokens.ValueText | CraftInterpreter.Lox/Token.cs:23 | how a literal interpolates: `null` as nothing, a bool as "True"/"False", a number as its lexeme, a string as itself, a token as its own `ToString` |
| Expressions.Accept | CraftInterpreter.Lox/Expression.cs:7-19 | `Accept` calls the visitor's method for exactly the node's own variant, for all ten variants |
| Expressions.LiteralText | CraftInterpreter.Lox/Expression.cs:56-59 | a literal holding a token renders as that token's lexeme; any other non-null value as its own `ToString` text (a string as its contents, a bool as "True"/"False", a number as its lexeme); null has no rendering (the source throws) |
| Statements.Accept | CraftInterpreter.Lox/Statement.cs:7-19 | `Accept` calls the visitor's method for exactly the statement's own variant, for all ten variants |
| Statements.Render | CraftInterpreter.Lox/Statement.cs:95 | `Print` renders as "print " followed by its expression's rendering, and fails exactly when that fails; the other variants render as their type name |
| Expressions.Render | CraftInterpreter.Lox/Expression.cs:36 | a `Binary` renders iff both operand slots render, as left, a space, the operator's lexeme, a space, right; a `Literal` renders as `LiteralText` says; every variant without its own `ToString` renders as its type name |
| Expressions.SlotText | CraftInterpreter.Lox/Expression.cs:36 | a null operand interpolates as the empty string, any other as its rendering |
| Expressions.DefaultName | CraftInterpreter.Lox/Expression.cs:3 | a variant without its own `ToString` renders as its nested type name, "CraftInterpreter.Lox.Expression+" followed by a non-empty variant name |
| Statements.DefaultName | CraftInterpreter.Lox/Statement.cs:3 | a statement other than `Print` renders as "CraftInterpreter.Lox.Statement+" followed by a non-empty variant name |
| TreeFacts.ExpressionNamesDistinct | CraftInterpreter.Lox/Expression.cs:3 | two expression variants render as the same type name iff they are the same variant |
| TreeFacts.StatementNamesDistinct | CraftInterpreter.Lox/Statement.cs:3 | two statement variants render as the same type name iff they are the same variant |
| TreeFacts.NullOperandRendering | CraftInterpreter.Lox/Expression.cs:36 | a null operand interpolates as the empty string |
| TreeFacts.FiveEqualsFive | CraftInterpreter.Lox/Expression.cs:36 | `Binary(5, ==, 5)` renders as "5 == 5" |
| TreeFacts.LiteralRendering | CraftInterpreter.Lox/Expression.cs:56-59 | a string literal renders as its contents, a token literal as its lexeme, and a null literal fails |
| TreeFacts.NilOperandThrows | CraftInterpreter.Lox/Expression.cs:36 | a `Binary` with a `nil` literal operand fails to render |
| TreeFacts.PrintRendering | CraftInterpreter.Lox/Statement.cs:95 | `print 5 == 5` renders as "print 5 == 5" |
| TreeFacts.TagsDistinguishVariants | CraftInterpreter.Lox/Expression.cs:115-129 | two expressions have the same visitor tag iff they are the same variant; in particular `Logical` is not `Binary` |
| ScanSpec.CharAt | CraftInterpreter.Lox/Scanner.cs:167-177 | the character at the index, or '\0' past the end |
| ScanSpec.DigitsEnd | CraftInterpreter.Lox/Scanner.cs:155 | the end of a digit run from `i` stays in bounds and sits at the end of the source or at a non-digit |
| ScanSpec.FirstFrom | CraftInterpreter.Lox/Scanner.cs:181-185 | the position found stays in bounds and holds the character sought, unless it is the end |
| ScanSpec.IdentifierEnd | CraftInterpreter.Lox/Scanner.cs:143 | the end of an identifier run stays in bounds and sits at the end of the source or at a character that is not a letter, digit or '_' |
| ScanSpec.NumberEnd | CraftInterpreter.Lox/Scanner.cs:153-163 | the end of a number stays in bounds and never falls before where it started |
| ScanSpec.WordKind | CraftInterpreter.Lox/Scanner.cs:146-149 | a word in the keyword table gets that keyword's kind, and any other word is `Identifier` |
| ScanSpec.ScanStep | CraftInterpreter.Lox/Scanner.cs:47-133 | a successful step consumes at least one character, stays in bounds and emits at most one token |
| ScanSpec.SlashStep | CraftInterpreter.Lox/Scanner.cs:102-109 | as `ScanStep`, for '/' |
| ScanSpec.StringStep | CraftInterpreter.Lox/Scanner.cs:179-200 | as `ScanStep`, for '"' |
| ScanSpec.WordStep | CraftInterpreter.Lox/Scanner.cs:121-130 | as `ScanStep`, for digits, letters and unexpected characters |
| ScanFacts.DigitClass | CraftInterpreter.Lox/Scanner.cs:135 | `IsDigit` holds exactly for the ten characters '0' to '9' |
| ScanFacts.AlphaClass | CraftInterpreter.Lox/Scanner.cs:137 | `IsAlpha` holds exactly for the 26 lower-case and 26 upper-case ASCII letters and '_' |
| ScanFacts.AlphaNumericClass | CraftInterpreter.Lox/Scanner.cs:139 | `IsAlphaNumeric` holds exactly for those letters, '_' and the ten digits |
| ScanFacts.KeywordTable | CraftInterpreter.Lox/Scanner.cs:5-23 | `break` is not in the keyword table, and no entry maps to `Identifier` |
| ScanFacts.KeywordSpellings | CraftInterpreter.Lox/Scanner.cs:5-23 | each of the sixteen keyword kinds is in the table under its reserved word (`SuperClass` under "super") |
| ScanSpec.Scan | CraftInterpreter.Lox/Scanner.cs:32-42 | a scan succeeds iff the pass from the start succeeds; it then yields the pass's tokens followed by one `Eof` with an empty lexeme on the pass's final line |
| ScanSpec.ScanReports | CraftInterpreter.Lox/Scanner.cs:190 | every report a scan makes is the line report "Unterminated string." |
| ScanSpec.PassReports | CraftInterpreter.Lox/Scanner.cs:190 | every report of a pass from any position is the line report "Unterminated string." |
| ScanSpec.ScanAll | CraftInterpreter.Lox/Scanner.cs:34-39 | the loop stops in bounds, and at the end of the source when it succeeds |
| ScanSpec.ScanAllAfterStep | CraftInterpreter.Lox/Scanner.cs:34-39 | one successful step moves its tokens and reports from the rest of the pass into the part done: the loop invariant of `ScanTokens` |
| Scanning.Scanner.constructor | CraftInterpreter.Lox/Scanner.cs:24-30 | a fresh scanner has no tokens; it has `current == start == 0` and `line == 1` |
| Scanning.Scanner.ScanTokens | CraftInterpreter.Lox/Scanner.cs:32-42 | the tokens and reports gain exactly those of the pass `ScanAll` from the old cursor and line; a successful pass then appends `Eof` with the final line; otherwise the result is the `UnexpectedCharacter` exception |
| Scanning.Scanner.IsAtEnd | CraftInterpreter.Lox/Scanner.cs:44 | true iff `current` is at the end of the source |
| Scanning.Scanner.ScanToken | CraftInterpreter.Lox/Scanner.cs:47-133 | the state moves exactly as `ScanStep` says; on the exception only `current` moves, past the offending character, and nothing is added or reported |
| Scanning.Scanner.Operator | CraftInterpreter.Lox/Scanner.cs:82-101 | emits the two-character kind when '=' follows and the one-character kind otherwise |
| Scanning.Scanner.SlashOrComment | CraftInterpreter.Lox/Scanner.cs:102-109 | performs `SlashStep`: a comment to the next newline, or `Slash` |
| Scanning.Scanner.Identifier | CraftInterpreter.Lox/Scanner.cs:141-151 | emits the maximal identifier run with the kind `WordKind` gives it |
| Scanning.Scanner.Number | CraftInterpreter.Lox/Scanner.cs:153-165 | emits the number up to `NumberEnd`, with its lexeme as its value |
| Scanning.Scanner.SkipDigits | CraftInterpreter.Lox/Scanner.cs:155 | moves `current` to the end of the digit run |
| Scanning.Scanner.PeekNext | CraftInterpreter.Lox/Scanner.cs:167-171 | the character after the current one, or '\0' |
| Scanning.Scanner.Peek | CraftInterpreter.Lox/Scanner.cs:173-177 | the current character, or '\0' at the end |
| Scanning.Scanner.StringToken | CraftInterpreter.Lox/Scanner.cs:179-200 | performs `StringStep`: the literal between the quotes, or the unterminated-string report |
| Scanning.Scanner.SkipStringBody | CraftInterpreter.Lox/Scanner.cs:181-185 | moves `current` to the next '"', or to the end, and raises `line` by the newlines passed |
| Scanning.Scanner.Match | CraftInterpreter.Lox/Scanner.cs:202-208 | true iff the current character is the expected one, and it is consumed only then |
| Scanning.Scanner.Advance | CraftInterpreter.Lox/Scanner.cs:210-214 | callable only when not at the end; consumes and returns the current character |
| Scanning.Scanner.AddToken | CraftInterpreter.Lox/Scanner.cs:216-222 | appends one token whose lexeme is `source[start..current]`, on the current line |
| ScanFacts.FirstFromSkips | CraftInterpreter.Lox/Scanner.cs:105 | no character before the position found is the one sought |
| ScanFacts.DigitsEndDigits | CraftInterpreter.Lox/Scanner.cs:155 | every character of a digit run is a digit |
| ScanFacts.IdentifierEndAlphaNumeric | CraftInterpreter.Lox/Scanner.cs:143 | every character of an identifier run is a letter, digit or '_' |
| ScanFacts.DigitsEndExact | CraftInterpreter.Lox/Scanner.cs:155 | a digit run ends exactly at the first non-digit |
| ScanFacts.IdentifierEndExact | CraftInterpreter.Lox/Scanner.cs:143 | an identifier run ends exactly at the first character that is not a letter, digit or '_' |
| ScanFacts.NewlinesInSplit | CraftInterpreter.Lox/Scanner.cs:115-116 | newline counts add up over adjacent ranges |
| ScanFacts.NoNewlines | CraftInterpreter.Lox/Scanner.cs:115-116 | a range without '\n' counts no newline |
| ScanFacts.NewlinesInCounts | CraftInterpreter.Lox/Scanner.cs:115-116 | the line increment over a range is the number of '\n' characters in it |
| ScanFacts.KeywordKinds | CraftInterpreter.Lox/Scanner.cs:5-23 | no word scans as a kind the scanner never produces, such as `Eof`, `Break`, `BangEqual` or `Modulus` |
| ScanFacts.StepWellFormed | CraftInterpreter.Lox/Scanner.cs:47-133 | every successful step emits only kinds the scanner produces; the line moves by the newlines consumed; an emitted token's lexeme is the text consumed and its line is the new line |
| ScanFacts.SlashStepWellFormed | CraftInterpreter.Lox/Scanner.cs:102-109 | `StepWellFormed` for '/' |
| ScanFacts.StringStepWellFormed | CraftInterpreter.Lox/Scanner.cs:179-200 | `StepWellFormed` for '"' |
| ScanFacts.WordStepWellFormed | CraftInterpreter.Lox/Scanner.cs:141-165 | `StepWellFormed` for numbers and words |
| ScanFacts.EmitOneWellFormed | CraftInterpreter.Lox/Scanner.cs:52-81 | `StepWellFormed` for a single-character token |
| ScanFacts.OneOrTwoWellFormed | CraftInterpreter.Lox/Scanner.cs:82-101 | `StepWellFormed` for the one-or-two-character operators |
| ScanFacts.SpansLength | CraftInterpreter.Lox/Scanner.cs:36-38 | a pass has one lexeme span per token |
| ScanFacts.ScanAllLine | CraftInterpreter.Lox/Scanner.cs:115-116 | the final line of a pass is the starting line plus every '\n' consumed, those inside string literals included |
| ScanFacts.SpanBounds | CraftInterpreter.Lox/Scanner.cs:36-38 | each token's span is non-empty and lies inside the part of the source the pass consumed |
| ScanFacts.PassIndex | CraftInterpreter.Lox/Scanner.cs:36-38 | the i-th token and span of a pass come from its first step or from the rest of the pass |
| ScanFacts.TokenLexeme | CraftInterpreter.Lox/Scanner.cs:216-222 | the i-th token's lexeme is exactly the source text of its span |
| ScanFacts.TokenLine | CraftInterpreter.Lox/Scanner.cs:181-185 | the i-th token's line is the starting line plus the newlines up to the end of its span |
| ScanFacts.TokenKind | CraftInterpreter.Lox/Scanner.cs:47-133 | no token of a pass has a kind the scanner never produces: `Eof`, `Break`, `BangEqual`, `Modulus`, `Question`, `Colon`, the brackets, `++`, `--` or `Undefined` |
| ScanFacts.SpansOrdered | CraftInterpreter.Lox/Scanner.cs:36-38 | consecutive tokens do not overlap and come in source order |
| ScanFacts.ScanAllTiles | CraftInterpreter.Lox/Scanner.cs:32-42 | for a whole pass: exact lexemes, bounds, order and lines of all tokens at once |
| ScanFacts.ScanEndsWithEof | CraftInterpreter.Lox/Scanner.cs:32-42 | a successful scan ends with exactly one `Eof`, with an empty lexeme and line 1 plus the newlines in the source; no other token is `Eof` |
| ScanFacts.EofRendering | CraftInterpreter.Lox/Token.cs:21-24 | the `Eof` token renders as "Eof " |
| ScanFacts.ScanAllStopsAtUnexpected | CraftInterpreter.Lox/Scanner.cs:126-129 | a failed pass stopped just past a character `ScanToken` has no case for |
| ScanFacts.TwoCharacterOperators | CraftInterpreter.Lox/Scanner.cs:82-101 | `==`, `<=`, `>=` give `EqualEqual`, `LessEqual`, `GreaterEqual`, and `!=` gives `Equal`; without a following '=' the one-character kind is emitted and only one character consumed |
| ScanFacts.BangEqualScansAsEqual | CraftInterpreter.Lox/Scanner.cs:82-86 | `a != b` scans to the identifier `a`, `Equal` spelled "!=", the identifier `b` and `Eof` |
| ScanFacts.NotEqualTail | CraftInterpreter.Lox/Scanner.cs:82-86 | the last part of `a != b` scans to the identifier `b` |
| ScanFacts.NotEqualMiddle | CraftInterpreter.Lox/Scanner.cs:82-86 | the middle part of `a != b` scans to `Equal` then `b` |
| ScanFacts.CommentsAndWhitespace | CraftInterpreter.Lox/Scanner.cs:102-117 | `//` skips up to, but not including, the next newline and emits nothing; a lone '/' is `Slash`; blanks emit nothing; '\n' emits nothing and counts a line |
| ScanFacts.NumberScan | CraftInterpreter.Lox/Scanner.cs:153-165 | a number is a maximal digit run, followed by '.' and a second maximal run only when a digit follows the '.'; its lexeme is also its value |
| ScanFacts.IdentifierScan | CraftInterpreter.Lox/Scanner.cs:141-151 | an identifier is the maximal letter/digit/'_' run, with its keyword's kind or `Identifier` |
| ScanFacts.BreakScansAsIdentifier | CraftInterpreter.Lox/Scanner.cs:5-23 | `break` scans as `Identifier` |
| ScanFacts.StringScan | CraftInterpreter.Lox/Scanner.cs:179-200 | a terminated string's literal is the text between the quotes, and its line counts the newlines inside; an unterminated one reports "Unterminated string." and adds no token |
| ScanFacts.UnexpectedCharacters | CraftInterpreter.Lox/Scanner.cs:121-130 | a step fails iff the character has no case in `ScanToken` and is no digit or letter; `#`, `%`, `?` and `:` fail |
| ScanFacts.ScanFailsAtUnexpected | CraftInterpreter.Lox/Scanner.cs:128-129 | a pass that meets `#`, `%`, `?` or `:` after blanks fails just past it, with no token and no report |
| ScanFacts.DeclarationScan | CraftInterpreter.Lox.Tests/LoxTests.cs:27-50 | `var LoxVersion = 0.1;` scans to `Var`, `Identifier`, `Equal`, `Number` "0.1", `Semicolon` and `Eof`, all on line 1 |
| ScanFacts.DeclarationTail | CraftInterpreter.Lox.Tests/LoxTests.cs:34-35 | `0.1;` scans to the number "0.1" and `;` |
| ScanFacts.DeclarationEquals | CraftInterpreter.Lox.Tests/LoxTests.cs:33-35 | the part from `=` on scans to `=`, "0.1" and `;` |
| ScanFacts.DeclarationNameStep | CraftInterpreter.Lox.Tests/LoxTests.cs:32 | `LoxVersion` is an identifier, not a keyword |
| ScanFacts.DeclarationName | CraftInterpreter.Lox.Tests/LoxTests.cs:32-35 | the part from the name on scans to the last four tokens |
| ScanFacts.DeclarationVarStep | CraftInterpreter.Lox.Tests/LoxTests.cs:31 | `var` scans as the keyword `Var` |
| ScanFacts.DeclarationFront | CraftInterpreter.Lox.Tests/LoxTests.cs:29-35 | the whole declaration scans to its five tokens without error |
| ParseSpec.Advanced | CraftInterpreter.Lox.Parser/Parser.cs:327-332 | `Advance` moves one token on, except at `Eof`, and changes nothing else |
| ParseSpec.Synchronize | CraftInterpreter.Lox.Parser/Parser.cs:492-513 | recovery only moves the cursor forward, and passes the offending token unless at `Eof` |
| ParseSpec.SynchronizeLoop | CraftInterpreter.Lox.Parser/Parser.cs:495-512 | the skipping loop only moves the cursor forward |
| ParseSpec.Parse | CraftInterpreter.Lox.Parser/Parser.cs:34-40 | parsing ends exactly at `Eof`, with the loop depth unchanged and reports only appended |
| ParseSpec.ParseLoop | CraftInterpreter.Lox.Parser/Parser.cs:37-38 | as `Parse`, from a list of entries already collected |
| ParseSpec.Declaration | CraftInterpreter.Lox.Parser/Parser.cs:42-56 | a declaration consumes at least one token unless at `Eof`, even when it fails and recovers |
| ParseSpec.Function | CraftInterpreter.Lox.Parser/Parser.cs:58-75 | the cursor only moves forward; a success consumes tokens; the loop depth is kept and reports only grow (likewise for every parse function below) |
| ParseSpec.ParameterList | CraftInterpreter.Lox.Parser/Parser.cs:62-70 | as `Function`, for the parameter list |
| ParseSpec.Parameters | CraftInterpreter.Lox.Parser/Parser.cs:64-70 | as `Function`, for the do-while loop over the parameters |
| ParseSpec.VarDeclaration | CraftInterpreter.Lox.Parser/Parser.cs:77-85 | as `Function`, for `var` |
| ParseSpec.Statement | CraftInterpreter.Lox.Parser/Parser.cs:87-97 | as `Function`, for the statement dispatch |
| ParseSpec.PrintStatement | CraftInterpreter.Lox.Parser/Parser.cs:141-146 | as `Function`, for `print` |
| ParseSpec.ReturnStatement | CraftInterpreter.Lox.Parser/Parser.cs:148-156 | as `Function`, for `return` |
| ParseSpec.ForInitializer | CraftInterpreter.Lox.Parser/Parser.cs:161-168 | as `Function`, for the `for` initializer |
| ParseSpec.ForCondition | CraftInterpreter.Lox.Parser/Parser.cs:169-172 | as `Function`, for the `for` condition |
| ParseSpec.ForIncrement | CraftInterpreter.Lox.Parser/Parser.cs:173-176 | as `Function`, for the `for` increment |
| ParseSpec.ForHeader | CraftInterpreter.Lox.Parser/Parser.cs:160-176 | as `Function`, for the parenthesised `for` clauses |
| ParseSpec.ForStatement | CraftInterpreter.Lox.Parser/Parser.cs:158-211 | as `Function`, for `for`; the loop depth is restored on success and on failure |
| ParseSpec.BreakStatement | CraftInterpreter.Lox.Parser/Parser.cs:213-219 | as `Function`, for `break` |
| ParseSpec.IfStatement | CraftInterpreter.Lox.Parser/Parser.cs:221-231 | as `Function`, for `if` |
| ParseSpec.ElseBranch | CraftInterpreter.Lox.Parser/Parser.cs:227-229 | the optional `else` branch only moves the cursor forward |
| ParseSpec.WhileStatement | CraftInterpreter.Lox.Parser/Parser.cs:233-254 | as `Function`, for `while`; the loop depth is restored on success and on failure |
| ParseSpec.LoopBody | CraftInterpreter.Lox.Parser/Parser.cs:177-210 | a loop body parsed one level deeper leaves the loop depth as it found it, success or failure |
| ParseSpec.Block | CraftInterpreter.Lox.Parser/Parser.cs:256-263 | as `Function`, for a block |
| ParseSpec.BlockLoop | CraftInterpreter.Lox.Parser/Parser.cs:259-260 | the block's declaration loop only moves the cursor forward |
| ParseSpec.ExpressionStatement | CraftInterpreter.Lox.Parser/Parser.cs:265-270 | as `Function`, for an expression statement |
| ParseSpec.Expression | CraftInterpreter.Lox.Parser/Parser.cs:99 | as `Function`, for an expression |
| ParseSpec.Assignment | CraftInterpreter.Lox.Parser/Parser.cs:101-115 | as `Function`, for assignment |
| ParseSpec.OrOperator | CraftInterpreter.Lox.Parser/Parser.cs:117-127 | as `Function`, for `or` |
| ParseSpec.OrLoop | CraftInterpreter.Lox.Parser/Parser.cs:120-125 | the `or` loop only moves the cursor forward |
| ParseSpec.AndOperator | CraftInterpreter.Lox.Parser/Parser.cs:129-139 | as `Function`, for `and` |
| ParseSpec.AndLoop | CraftInterpreter.Lox.Parser/Parser.cs:132-137 | the `and` loop only moves the cursor forward |
| ParseSpec.Equality | CraftInterpreter.Lox.Parser/Parser.cs:285-295 | as `Function`, for `==` and `!=` |
| ParseSpec.EqualityLoop | CraftInterpreter.Lox.Parser/Parser.cs:288-293 | the equality loop only moves the cursor forward |
| ParseSpec.Comparison | CraftInterpreter.Lox.Parser/Parser.cs:357-368 | as `Function`, for the comparisons |
| ParseSpec.ComparisonLoop | CraftInterpreter.Lox.Parser/Parser.cs:361-366 | the comparison loop only moves the cursor forward |
| ParseSpec.Term | CraftInterpreter.Lox.Parser/Parser.cs:370-380 | as `Function`, for `+` and `-` |
| ParseSpec.TermLoop | CraftInterpreter.Lox.Parser/Parser.cs:373-378 | the term loop only moves the cursor forward |
| ParseSpec.Factor | CraftInterpreter.Lox.Parser/Parser.cs:382-392 | as `Function`, for `*`, `/` and `%` |
| ParseSpec.FactorLoop | CraftInterpreter.Lox.Parser/Parser.cs:386-390 | the factor loop only moves the cursor forward |
| ParseSpec.Unary | CraftInterpreter.Lox.Parser/Parser.cs:394-401 | as `Function`, for unary operators |
| ParseSpec.Primary | CraftInterpreter.Lox.Parser/Parser.cs:422-464 | as `Function`, for primaries |
| ParseSpec.ErrorProduction | CraftInterpreter.Lox.Parser/Parser.cs:438-463 | as `Function`, for the missing-operand productions |
| ParseSpec.MissingOperand | CraftInterpreter.Lox.Parser/Parser.cs:439-462 | as `Function`, for one missing-operand production |
| Parsing.Parser.constructor | CraftInterpreter.Lox.Parser/Parser.cs:23-28 | a parser over a token list ending in `Eof` starts at token 0 with loop depth 0 and no reports |
| Parsing.Parser.IsAtEnd | CraftInterpreter.Lox.Parser/Parser.cs:338 | true iff the current token is `Eof` |
| Parsing.Parser.Peek | CraftInterpreter.Lox.Parser/Parser.cs:343 | the current token |
| Parsing.Parser.Previous | CraftInterpreter.Lox.Parser/Parser.cs:348 | the previous token, callable only when `current >= 1` |
| Parsing.Parser.Check | CraftInterpreter.Lox.Parser/Parser.cs:316-321 | true iff the current token has the kind and is not `Eof` |
| Parsing.Parser.Advance | CraftInterpreter.Lox.Parser/Parser.cs:327-332 | moves one token on unless at `Eof`, and returns the previous token |
| Parsing.Parser.MatchAny | CraftInterpreter.Lox.Parser/Parser.cs:301-310 | true iff the current token is not `Eof` and has one of the kinds; it advances exactly one token then and changes nothing otherwise |
| Parsing.Parser.Consume | CraftInterpreter.Lox.Parser/Parser.cs:483-488 | computes `ParseSpec.Consume` (see `ParseFacts.ConsumeOutcome`) |
| Parsing.Parser.Error | CraftInterpreter.Lox.Parser/Parser.cs:490 | appends one report at the token, with the message |
| Parsing.Parser.Synchronize | CraftInterpreter.Lox.Parser/Parser.cs:492-513 | computes `ParseSpec.Synchronize` (see `ParseFacts.SynchronizeStops`) |
| Parsing.Parser.Parse | CraftInterpreter.Lox.Parser/Parser.cs:34-40 | computes `ParseSpec.Parse` (see `ParseFacts.ParseEntries`) |
| Parsing.Parser.Declaration | CraftInterpreter.Lox.Parser/Parser.cs:42-56 | computes `ParseSpec.Declaration` (see `ParseFacts.DeclarationRecovers`) |
| Parsing.Parser.Function | CraftInterpreter.Lox.Parser/Parser.cs:58-75 | computes `ParseSpec.Function` |
| Parsing.Parser.ParameterList | CraftInterpreter.Lox.Parser/Parser.cs:62-70 | computes `ParseSpec.ParameterList` (see `ParseFacts.ParameterCap`) |
| Parsing.Parser.VarDeclaration | CraftInterpreter.Lox.Parser/Parser.cs:77-85 | computes `ParseSpec.VarDeclaration` |
| Parsing.Parser.Statement | CraftInterpreter.Lox.Parser/Parser.cs:87-97 | computes `ParseSpec.Statement` |
| Parsing.Parser.PrintStatement | CraftInterpreter.Lox.Parser/Parser.cs:141-146 | computes `ParseSpec.PrintStatement` |
| Parsing.Parser.ReturnStatement | CraftInterpreter.Lox.Parser/Parser.cs:148-156 | computes `ParseSpec.ReturnStatement` |
| Parsing.Parser.ForStatement | CraftInterpreter.Lox.Parser/Parser.cs:158-211 | computes `ParseSpec.ForStatement` (see `ParseFacts.ForDesugaring`) |
| Parsing.Parser.ForHeader | CraftInterpreter.Lox.Parser/Parser.cs:160-176 | computes `ParseSpec.ForHeader` |
| Parsing.Parser.ForInitializer | CraftInterpreter.Lox.Parser/Parser.cs:161-168 | computes `ParseSpec.ForInitializer` |
| Parsing.Parser.ForCondition | CraftInterpreter.Lox.Parser/Parser.cs:169-172 | computes `ParseSpec.ForCondition` |
| Parsing.Parser.ForIncrement | CraftInterpreter.Lox.Parser/Parser.cs:173-176 | computes `ParseSpec.ForIncrement` |
| Parsing.Parser.BreakStatement | CraftInterpreter.Lox.Parser/Parser.cs:213-219 | computes `ParseSpec.BreakStatement` (see `ParseFacts.BreakReports`) |
| Parsing.Parser.IfStatement | CraftInterpreter.Lox.Parser/Parser.cs:221-231 | computes `ParseSpec.IfStatement` |
| Parsing.Parser.ElseBranch | CraftInterpreter.Lox.Parser/Parser.cs:227-229 | computes `ParseSpec.ElseBranch` |
| Parsing.Parser.WhileStatement | CraftInterpreter.Lox.Parser/Parser.cs:233-254 | computes `ParseSpec.WhileStatement` |
| Parsing.Parser.LoopBody | CraftInterpreter.Lox.Parser/Parser.cs:177-210 | computes `ParseSpec.LoopBody` |
| Parsing.Parser.Block | CraftInterpreter.Lox.Parser/Parser.cs:256-263 | computes `ParseSpec.Block` |
| Parsing.Parser.ExpressionStatement | CraftInterpreter.Lox.Parser/Parser.cs:265-270 | computes `ParseSpec.ExpressionStatement` |
| Parsing.Parser.Expression | CraftInterpreter.Lox.Parser/Parser.cs:99 | computes `ParseSpec.Expression` |
| Parsing.Parser.Assignment | CraftInterpreter.Lox.Parser/Parser.cs:101-115 | computes `ParseSpec.Assignment` (see `ParseFacts.AssignOnlyToVariable`) |
| Parsing.Parser.OrOperator | CraftInterpreter.Lox.Parser/Parser.cs:117-127 | computes `ParseSpec.OrOperator` (see `ParseFacts.OrGroupsLeft`) |
| Parsing.Parser.AndOperator | CraftInterpreter.Lox.Parser/Parser.cs:129-139 | computes `ParseSpec.AndOperator` (see `ParseFacts.AndGroupsLeft`) |
| Parsing.Parser.Equality | CraftInterpreter.Lox.Parser/Parser.cs:285-295 | computes `ParseSpec.Equality` (see `ParseFacts.EqualityGroupsLeft`) |
| Parsing.Parser.Comparison | CraftInterpreter.Lox.Parser/Parser.cs:357-368 | computes `ParseSpec.Comparison` (see `ParseFacts.ComparisonReusesRight`) |
| Parsing.Parser.Term | CraftInterpreter.Lox.Parser/Parser.cs:370-380 | computes `ParseSpec.Term` (see `ParseFacts.TermGroupsLeft`) |
| Parsing.Parser.Factor | CraftInterpreter.Lox.Parser/Parser.cs:382-392 | computes `ParseSpec.Factor` (see `ParseFacts.FactorReusesRight`) |
| Parsing.Parser.Unary | CraftInterpreter.Lox.Parser/Parser.cs:394-401 | computes `ParseSpec.Unary` (see `ParseFacts.UnaryNeverBuildsUnary`) |
| Parsing.Parser.Primary | CraftInterpreter.Lox.Parser/Parser.cs:422-464 | computes `ParseSpec.Primary` (see `ParseFacts.PrimaryShapes`) |
| Parsing.Parser.ErrorProduction | CraftInterpreter.Lox.Parser/Parser.cs:438-463 | computes `ParseSpec.ErrorProduction` (see `ParseFacts.ErrorProductionReports`) |
| Parsing.Parser.MissingOperand | CraftInterpreter.Lox.Parser/Parser.cs:439-462 | computes `ParseSpec.MissingOperand` |
| ParseSpec.IsAtEnd | CraftInterpreter.Lox.Parser/Parser.cs:338 | the cursor is at the end whenever it sits on the last token, which is `Eof` |
| ParseFacts.CheckKind | CraftInterpreter.Lox.Parser/Parser.cs:316-321 | `Check` holds only for a kind other than `Eof`, never at the end, and then iff the current token has that kind |
| ParseFacts.MatchesSomeCheck | CraftInterpreter.Lox.Parser/Parser.cs:301-310 | the test `MatchAny` makes holds iff `Check` holds for one of the kinds |
| ParseFacts.ReportedAppends | CraftInterpreter.Lox.Parser/Parser.cs:490 | `Error` appends exactly one report at the given token with the given message, and moves neither the cursor nor the loop depth |
| ParseFacts.DepthRestored | CraftInterpreter.Lox.Parser/Parser.cs:180-208 | `loopDepth++` and `loopDepth--` change only the loop depth, by one each way, and undo each other |
| ParseFacts.CursorAtEof | CraftInterpreter.Lox.Parser/Parser.cs:316-332 | at `Eof`, `Check` and `MatchAny` are false and `Advance` does not move |
| ParseFacts.ConsumeOutcome | CraftInterpreter.Lox.Parser/Parser.cs:483-488 | `Consume` succeeds iff the current token has the kind; it then returns that token and advances exactly one; otherwise it fails with the message, leaves the cursor where it was and reports nothing |
| ParseFacts.SynchronizeLoopStops | CraftInterpreter.Lox.Parser/Parser.cs:495-512 | the loop stops at the first synchronization point, and only the cursor changes |
| ParseFacts.SynchronizeStops | CraftInterpreter.Lox.Parser/Parser.cs:492-513 | recovery ends at `Eof`, just after a ';', or in front of `class`/`fun`/`var`/`for`/`if`/`while`/`print`/`return`, at the first such point after the offending token; only the cursor changes |
| ParseFacts.DeclarationRecovers | CraftInterpreter.Lox.Parser/Parser.cs:42-56 | a failed declaration (a null entry) leaves the parser at a synchronization point |
| ParseFacts.ParseLoopCollects | CraftInterpreter.Lox.Parser/Parser.cs:37-38 | the loop keeps the entries already collected and adds at most one per token consumed |
| ParseFacts.ParseEntries | CraftInterpreter.Lox.Parser/Parser.cs:34-40 | `Parse` stops at `Eof` and has at most one entry per token consumed, since each declaration consumes at least one |
| ParseFacts.BreakReports | CraftInterpreter.Lox.Parser/Parser.cs:213-219 | `break` succeeds iff ';' follows, and builds `Break`; at loop depth 0 it reports "Must be inside a loop to use 'break'" once at the `break` token, and otherwise reports nothing |
| ParseFacts.StatementAtBreak | CraftInterpreter.Lox.Parser/Parser.cs:90 | a statement starting at a `Break` token is a `break` statement |
| ParseFacts.BreakSemicolon | CraftInterpreter.Lox.Parser/Parser.cs:217 | `break;` consumes the ';' |
| ParseFacts.BreakAt | CraftInterpreter.Lox.Parser/Parser.cs:213-219 | `break;` parses as `Break`, consuming two tokens and reporting only at depth 0 |
| ParseFacts.BreakInLoopBody | CraftInterpreter.Lox.Parser/Parser.cs:177-210 | `break;` as a loop body parses without a report, and the loop depth comes back to 0 |
| ParseFacts.BreakOutsideLoopReported | CraftInterpreter.Lox.Parser/Parser.cs:215-216 | `break;` at depth 0 reports exactly once |
| ParseFacts.CapReportsJoin | CraftInterpreter.Lox.Parser/Parser.cs:66-68 | reports of the parameter cap made in two stretches join up |
| ParseFacts.ParametersReports | CraftInterpreter.Lox.Parser/Parser.cs:66-68 | every report the parameter loop makes is the "Cannot have more then 32 parameters." report |
| ParseFacts.ParametersKept | CraftInterpreter.Lox.Parser/Parser.cs:64-70 | the loop keeps the names gathered so far, every parameter included, and adds at least one identifier |
| ParseFacts.ParametersPastCap | CraftInterpreter.Lox.Parser/Parser.cs:64-70 | the loop adds at least one parameter and reports once for each parameter beyond 32 |
| ParseFacts.ParameterCap | CraftInterpreter.Lox.Parser/Parser.cs:62-70 | a list of n parameters is kept whole, with max(0, n - 32) reports |
| ParseFacts.MissingOperandReports | CraftInterpreter.Lox.Parser/Parser.cs:439-462 | a missing-operand production reports "Missing left-hand operand." at the operator, then parses its operand, and yields null |
| ParseFacts.ErrorProductionReports | CraftInterpreter.Lox.Parser/Parser.cs:438-463 | at an operator token the result is null after a report at that token; at any other token it is the "Expected expression." failure with nothing consumed |
| ParseFacts.PrimaryShapes | CraftInterpreter.Lox.Parser/Parser.cs:422-464 | a primary is a literal, a variable, a grouping or null |
| ParseFacts.UnaryNeverBuildsUnary | CraftInterpreter.Lox.Parser/Parser.cs:394-401 | `Unary` never builds a `Unary` node: its result is a primary |
| ParseFacts.WrapsOnTop | CraftInterpreter.Lox.Parser/Parser.cs:120-125 | a chain that wraps one more node wraps that node's left operand |
| ParseFacts.OrLoopWraps | CraftInterpreter.Lox.Parser/Parser.cs:120-125 | the `or` loop only wraps the expression so far, as the left operand all the way down, in `Logical` nodes |
| ParseFacts.AndLoopWraps | CraftInterpreter.Lox.Parser/Parser.cs:132-137 | the `and` loop only wraps the expression so far, as the left operand all the way down, in `Logical` nodes |
| ParseFacts.EqualityLoopWraps | CraftInterpreter.Lox.Parser/Parser.cs:288-293 | the equality loop only wraps the expression so far, as the left operand all the way down, in `Binary` nodes |
| ParseFacts.TermLoopWraps | CraftInterpreter.Lox.Parser/Parser.cs:373-378 | the term loop only wraps the expression so far, as the left operand all the way down, in `Binary` nodes |
| ParseFacts.ComparisonLoopReusesRight | CraftInterpreter.Lox.Parser/Parser.cs:361-366 | every `Binary` the comparison loop builds has the same right operand |
| ParseFacts.FactorLoopReusesRight | CraftInterpreter.Lox.Parser/Parser.cs:386-390 | every `Binary` the factor loop builds has the same right operand |
| ParseFacts.SameRightOnTop | CraftInterpreter.Lox.Parser/Parser.cs:365 | wrapping once more with the same right operand keeps the shape |
| ParseFacts.SameRightWraps | CraftInterpreter.Lox.Parser/Parser.cs:389 | a chain with one shared right operand wraps its start, as the left operand all the way down, in `Binary` nodes |
| ParseFacts.ComparisonReusesRight | CraftInterpreter.Lox.Parser/Parser.cs:357-368 | a comparison is its first operand wrapped in `Binary` nodes whose right operand is always the second operand parsed |
| ParseFacts.FactorReusesRight | CraftInterpreter.Lox.Parser/Parser.cs:382-392 | a factor is its first operand wrapped in `Binary` nodes whose right operand is always the second operand parsed |
| ParseFacts.FactorShapes | CraftInterpreter.Lox.Parser/Parser.cs:382-392 | a factor is a primary or a `Binary`, never a `Logical`: only the `and` and `or` levels build `Logical` nodes |
| ParseFacts.TermShapes | CraftInterpreter.Lox.Parser/Parser.cs:370-380 | a term is a primary or a `Binary`, never a `Logical`: only the `and` and `or` levels build `Logical` nodes |
| ParseFacts.ComparisonShapes | CraftInterpreter.Lox.Parser/Parser.cs:357-368 | a comparison is a primary or a `Binary`, never a `Logical`: only the `and` and `or` levels build `Logical` nodes |
| ParseFacts.EqualityShapes | CraftInterpreter.Lox.Parser/Parser.cs:285-295 | an equality is a primary or a `Binary`, never a `Logical`: only the `and` and `or` levels build `Logical` nodes |
| ParseFacts.AndShapes | CraftInterpreter.Lox.Parser/Parser.cs:129-139 | an `and` level result is a primary, a `Binary` or a `Logical` |
| ParseFacts.OrShapes | CraftInterpreter.Lox.Parser/Parser.cs:117-127 | an `or` level result is a primary, a `Binary` or a `Logical` |
| ParseFacts.AssignOnlyToVariable | CraftInterpreter.Lox.Parser/Parser.cs:101-112 | the result is `Assign` iff the left side is a `Variable`, '=' follows and the right side parses; it then holds the variable's name and the right side, parsed right-associatively |
| ParseFacts.InvalidTargetReported | CraftInterpreter.Lox.Parser/Parser.cs:106-114 | with '=' after a left side that is not a variable, the result is that left side without failing; "Invalid assignment target." is reported at the '=' token |
| ParseFacts.OrGroupsLeft | CraftInterpreter.Lox.Parser/Parser.cs:117-127 | `a or b or c` parses as `Logical(Logical(a, or, b), or, c)` |
| ParseFacts.AndGroupsLeft | CraftInterpreter.Lox.Parser/Parser.cs:129-139 | `a and b and c` parses as `Logical(Logical(a, and, b), and, c)` |
| ParseFacts.EqualityGroupsLeft | CraftInterpreter.Lox.Parser/Parser.cs:285-295 | `a op1 b op2 c` with equality operators parses as `Binary(Binary(a, op1, b), op2, c)` |
| ParseFacts.TermGroupsLeft | CraftInterpreter.Lox.Parser/Parser.cs:370-380 | `a op1 b op2 c` with `+`/`-` parses as `Binary(Binary(a, op1, b), op2, c)` |
| ParseFacts.ForDesugaring | CraftInterpreter.Lox.Parser/Parser.cs:158-200 | a `for` loop is `While(condition or true, body)`; `body` is `Block[body, ExpressionStatement(increment)]` when there is an increment; it is wrapped as `Block[initializer, while]` when there is an initializer; the loop depth is unchanged |
| ParseFacts.FactorFailurePropagates | CraftInterpreter.Lox.Parser/Parser.cs:99-139 | a failure at the `Factor` level reaches `Expression` unchanged, through `Term`, `Comparison`, `Equality`, `and`, `or` and `Assignment` |
| ParseFacts.SingleDeclaration | CraftInterpreter.Lox.Parser/Parser.cs:34-40 | when one declaration ends at `Eof`, `Parse` returns exactly that entry |
| ParseFacts.VarTestNumber | CraftInterpreter.Lox.Tests/ParserTests.cs:13 | in `var x=10;`, `10` is a complete unary operand |
| ParseFacts.VarTestSemicolon | CraftInterpreter.Lox.Parser/Parser.cs:463 | in `var x=10;`, `Unary` at `;` throws "Expected expression." without consuming or reporting |
| ParseFacts.VarTestInitializer | CraftInterpreter.Lox.Parser/Parser.cs:384-385 | the initializer `10` fails, because `Factor` looks for a second operand and meets `;` |
| ParseFacts.VarTestDeclarationThrows | CraftInterpreter.Lox.Parser/Parser.cs:77-85 | the declaration `var x=10;` throws at the `;` |
| ParseFacts.VarTestSynchronizes | CraftInterpreter.Lox.Parser/Parser.cs:492-513 | recovery from that `;` stops at `Eof` |
| ParseFacts.VarTestDeclaration | CraftInterpreter.Lox.Parser/Parser.cs:42-56 | the declaration becomes a null entry with the cursor at `Eof` |
| ParseFacts.VarTestParsesToNull | CraftInterpreter.Lox.Tests/ParserTests.cs:9-17 | `var x=10;` parses to the single entry null with no report, not the `Var` statement the test expects |

## Left out

- Console and file I/O: the REPL, file reading, printing and `Environment.Exit` in `CraftInterpreter.Lox/Program.cs`, and the demo in `CraftInterpreter.Lox.Parser/Program.cs`. These are I/O. `Program.Error` appears only as an entry in the scanner's report log.
- `CraftInterpreter.Lox.Parser/Debug.cs`: it only colours console output.
- `ErrorHandler.cs` and `ParserErrorHandler.cs`: the report sink is modelled as the ghost log `reports`. What a handler does with a report is not modelled.
- `GenerateAbstractSyntaxTree.cs`: a code generator that writes files.
- `AstPrinter.cs`: it is commented out.
- The build copy of `Expression.cs` under the test project's `bin` directory: it is a stale artefact.
- Floating point: `double.Parse` on a number's lexeme and the printing of doubles are not modelled. A number token carries its lexeme as its value (`Value.Num`), and a literal renders as that text. A `true` or `false` literal renders the way .NET prints booleans.
- `Call`/`Postfix` (commented out), `FinishCall` and `Conditional`: the parser never reaches them, so they are not modelled. The `CallExpression`, `Conditional` and `This` variants and `Statement.Class` exist in the datatypes, but nothing claims the parser builds them.
- The exception classes: every exception the parser throws is one failure kind, `ParseSpec.ParseError`, and `Declaration` catches it.
  - `Consume` and `Primary` throw `Lox.LoxExceptions`, while `Declaration` catches the parser namespace's `LoxExceptions`.
  - `Lox.LoxExceptions` is not part of this model, so the two are taken to be the same class, as the for/while rethrow and the recovery design intend.
  - `for` and `while` catch every exception, rethrow it and restore `loopDepth`; this is modelled for `ParseError`, the only kind the model raises.
- `RuntimeError.cs`: it belongs to an evaluator that is not part of this model.
- Token fields `type`, `lexeme` and `line` are writable in the source, but nothing in the core writes them after construction, so `Token` is a value.
- Reachability of `break`: the keyword table has no `break` entry, so scanned input never contains a `Break` token. `BreakStatement` and the `ParseFacts` break lemmas are about token lists built directly.
- The parse-level assertions of the four tests in `ParserTests.cs` (lines 9-17, 20-30, 33-45 and 47-55) and of `CheckVarDeclarationIsValid` in `LoxTests.cs` (lines 53-61) are not stated. They expect trees that the `Comparison`/`Factor` code does not build. `Factor` parses a second operand before its loop, so in `var x=10;` and `print "hello World";` that second `Unary` meets `;` and throws "Expected expression.". Each program then parses to a single null entry; `ParseFacts.VarTestParsesToNull` shows this for `var x=10;`.
- The file-based test in `LoxTests.cs` that reads `HelloWorld.doxtream` is not modelled. It depends on a file outside the source.
- ParseSpec.Function and the other parse functions: their own contracts state only progress and what is preserved. The shape of each result is stated by the `ParseFacts` lemmas for the levels the source's promises concern. There is no general lemma such as "every parse function returns a well-typed tree", because that holds by construction of the datatypes.
- Integer widths: `current`, `line` and `loopDepth` are C# `int`s, modelled as unbounded integers. Overflow would need more than 2^31 characters or nested loops.
