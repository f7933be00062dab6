# Lox front end in Dafny

A model of the front end of a tree-walking Lox interpreter written in
TypeScript. It has three parts:

- the scanner, which turns source text into tokens;
- the recursive-descent parser, which builds one expression tree from the tokens;
- the expression tree and the AST printer, which writes a tree as
  fully parenthesised prefix text.

The scanner and the parser are objects whose methods move a cursor.
`Scanning.Scanner` and `Parsing.Parser` are Dafny classes with the same
state and the same loops. Every difference in fields, in how the methods
are split and in what they return is listed under "## Left out". Each
method is proved to do what a pure function says:

- `Lexing.ScanStep` is one call of `scanToken`, and `Lexing.ScanFrom` /
  `Lexing.ScanTokens` is the whole scan;
- `Grammar.Expression`, `Grammar.BinaryLevel`, `Grammar.Fold`,
  `Grammar.Unary`, `Grammar.Primary` and `Grammar.Synchronize` give each
  rule's outcome and cursor;
- `Printer.Printed` is the text of a tree.

The properties the front end promises are proved about those functions in
`LexingFacts`, `GrammarFacts`, `PrinterFacts` and `Numerals`:

- the shape of the token list;
- lexemes and line numbers;
- maximal munch;
- string, number and word literals;
- precedence and left associativity of the trees the parser builds;
- a round trip from a tree to tokens and back;
- the error messages and where they are reported;
- where `synchronize` stops;
- balanced parentheses in the printed text.

A report to the error sink (`Lox.error`) is modelled as a `Diagnostic`
appended to an `errors` field. The scanner reports a line and a message;
the parser reports the offending token and a message. A thrown parse error
is modelled as an outcome `Failed(at, message)`, or as `None` from a
parser method. `parse` returns `None` where the source returns `null`.

The shown `Lox.error` takes a line number and prints no `at end` /
`at '<lexeme>'` suffix. The model follows the code: the parser's report is
the token and the message, and no text is formatted.

## Model

| member | source | states |
|---|---|---|
| Printer.PrintIsAccept | Expr.ts:14-52 | printing is accept with the printer visitor, whose four functions are the four visit methods; this holds by unfolding accept, and the dispatch fact itself is Ast.AcceptOwnArm |
| Ast.Accept | Expr.ts:19-51 | each node kind calls its own visit function on its own fields (definition) |
| Ast.AcceptOwnArm | Expr.ts:19-51 | the result of accept depends only on the visit function of the node's own kind: two visitors that agree on that one function give the same result |
| Printer.Printed | AstPrinter.ts:20-51 | the printed form of a node that is not a literal starts with `(` and ends with `)` |
| Printer.LiteralText | AstPrinter.ts:32-35 | nil prints as `nil`, a boolean as `true` / `false`, a string as its text, a number as its shortest numeral (definition) |
| Numerals.NumberText | AstPrinter.ts:32-35 | the string form of a number value: the numeral with leading zeros of the whole part and trailing zeros of the fraction removed, and no dot when the fraction is all zeros (definition; its properties are Numerals.NumberTextFacts) |
| Printer.Parenthesized | AstPrinter.ts:41-51 | the text starts with `(` and the name, and ends with `)` |
| Printer.Print | AstPrinter.ts:20-22 | the method returns the printed form of the tree |
| Printer.VisitBinaryExpr | AstPrinter.ts:24-26 | a binary node prints as its operator lexeme and its left and right operands, in parentheses |
| Printer.VisitGroupingExpr | AstPrinter.ts:28-30 | a grouping prints as `group` and its inner expression, in parentheses |
| Printer.VisitLiteralExpr | AstPrinter.ts:32-35 | nil prints as `nil`; any other value prints as its string form |
| Printer.VisitUnaryExpr | AstPrinter.ts:37-39 | a unary node prints as its operator lexeme and its operand, in parentheses |
| Printer.Parenthesize | AstPrinter.ts:41-51 | the loop builds "(" + name, one space and one printed child per argument in order, then ")" |
| Printer.ParenthesizedOne | AstPrinter.ts:41-51 | a node with one part prints as `(name part)` |
| Printer.ParenthesizedTwo | AstPrinter.ts:41-51 | a node with two parts prints as `(name a b)` |
| Printer.ExamplePrinted | AstPrinter.ts:7-17 | the tree for -123 * (45.67) prints exactly `(* (- 123) (group 45.67))` |
| Printer.PrintExample | AstPrinter.ts:7-17 | building the example tree and printing it returns `(* (- 123) (group 45.67))` |
| PrinterFacts.PrintedNested | AstPrinter.ts:41-51 | when no lexeme or literal text holds a parenthesis, the printed text is balanced, never closes more than it opened, has one pair per non-literal node, and is a single group unless the tree is a literal |
| PrinterFacts.BinaryBalanced | AstPrinter.ts:24-26 | a binary node over balanced operands prints balanced, as one group |
| PrinterFacts.GroupingBalanced | AstPrinter.ts:28-30 | a grouping over a balanced expression prints balanced, as one group |
| PrinterFacts.UnaryBalanced | AstPrinter.ts:37-39 | a unary node over a balanced operand prints balanced, as one group |
| PrinterFacts.Node | AstPrinter.ts:41-51 | parenthesize over balanced parts gives one group with one more pair than the parts |
| Numerals.NumberTextFacts | AstPrinter.ts:32-35 | the printed text of a number literal is a numeral with the same exact value, in shortest form, and a numeral already in shortest form prints as itself |
| Lexing.CommentEnd | Scanner.ts:84-88 | a comment stops at the next line break, which it does not consume, or at the end of the source |
| Lexing.CommentEndFacts | Scanner.ts:84-88 | a comment holds no line break |
| Lexing.DigitsEnd | Scanner.ts:166-168 | the run of digits stops at a non-digit or the end |
| Lexing.DigitsEndFacts | Scanner.ts:166-168 | every character of the run is a digit |
| Lexing.WordEnd | Scanner.ts:187-189 | the run of letters, digits and underscores stops at any other character or the end |
| Lexing.WordEndFacts | Scanner.ts:187-189 | every character of the run is a letter, a digit or an underscore |
| Lexing.StringEnd | Scanner.ts:143-148 | a string body stops at the closing quote or the end of the source |
| Lexing.StringEndFacts | Scanner.ts:143-148 | a string body holds no quote, and the line counter counts every line break inside it |
| Lexing.ScanStep | Scanner.ts:25-107 | every call of scanToken consumes at least one character and stays within the source |
| Lexing.StepBlank | Scanner.ts:28-35 | space, carriage return and tab emit nothing; a line break emits nothing and adds one to the line |
| Lexing.StepPunctuation | Scanner.ts:37-66 | each of the ten punctuation characters is a one-character token of its kind |
| Lexing.StepOperator | Scanner.ts:67-82 | `!`, `=`, `<` and `>` take a following `=` into a two-character token, and stand alone otherwise |
| Lexing.StepSlash | Scanner.ts:83-92 | `//` skips to the next line break and emits nothing; a lone `/` is SLASH |
| Lexing.StepLiteral | Scanner.ts:94-102 | a quote starts a string, a digit a number, a letter or underscore a word |
| Lexing.StepUnexpected | Scanner.ts:98-105 | any other character is reported as `Unexpected character.` on the current line, is skipped, and emits nothing |
| Lexing.StringStepFacts | Scanner.ts:142-159 | a string step consumes at least the quote and counts every line break it consumes |
| Lexing.StepLines | Scanner.ts:25-107 | every step adds to the line exactly the line breaks it consumed |
| Lexing.StepToken | Scanner.ts:213-216 | an emitted token's lexeme is the text from start to the cursor, its line is the current line, it is never EOF, and no step both emits and reports |
| Lexing.Emit | Scanner.ts:213-216 | addToken: one token of the given kind and literal whose lexeme is the text from start to the cursor, on the current line, with no report (definition) |
| Lexing.EofToken | Scanner.ts:20 | the EOF token: empty lexeme, no literal, the current line (definition) |
| Lexing.IsDigit | Scanner.ts:161-163 | the ten ASCII digits (definition) |
| Lexing.Keywords | Scanner.ts:219-236 | the sixteen reserved words and their kinds (definition) |
| Lexing.IsAlpha | Scanner.ts:201-203 | ASCII letters of either case and the underscore (definition) |
| Lexing.IsAlphaNumeric | Scanner.ts:205-207 | a letter, an underscore or a digit (definition) |
| Lexing.KeywordKind | Scanner.ts:193-196 | a word is IDENTIFIER exactly when it is not a key of the keyword table (Scanner.ts:219-236), and never EOF; a key gets its table kind |
| Lexing.PunctuationKind | Scanner.ts:37-66 | a one-character token kind exists exactly for the ten characters `( ) { } , . - + ; *` |
| Lexing.OperatorKind | Scanner.ts:67-82 | the two-character kinds BANG_EQUAL, EQUAL_EQUAL, LESS_EQUAL and GREATER_EQUAL are chosen exactly when an `=` follows |
| Lexing.StringStep | Scanner.ts:142-159 | a string literal consumes at least its opening quote and stays within the source (its token and report are stated by ClosedString and UnterminatedString) |
| Lexing.NumberStep | Scanner.ts:165-184 | a number always emits a NUMBER token and no report, on the same line, and stops where no digit follows |
| Lexing.IdentifierStep | Scanner.ts:186-199 | a word always emits a token that is not EOF and no report, on the same line, and stops where no letter, digit or underscore follows |
| Lexing.ScanFrom | Scanner.ts:13-23 | the scan loop emits at most one token and at most one report per character it consumes |
| Lexing.ScanTokens | Scanner.ts:13-23 | scanTokens yields at least the EOF token, last, at most one token per character plus EOF, and at most one report per character |
| Lexing.ScanFromStep | Scanner.ts:14-18 | one turn of the scan loop appends one step's token and report in front of the rest of the scan |
| LexingFacts.ScanFromLine | Scanner.ts:13-23 | the final line is the starting line plus the line breaks of the scanned text |
| LexingFacts.ScanFromTokens | Scanner.ts:13-23 | no scanned token is EOF, and token lines lie between the starting and final line, in non-decreasing order |
| LexingFacts.ScanTokensShape | Scanner.ts:13-23 | scanTokens ends with exactly one EOF token, last, carrying 1 + the number of line breaks; all lines are at least 1 and non-decreasing |
| LexingFacts.LexemeSpans | Scanner.ts:213-216 | each token is the text of its own span of the source; the spans come in source order without overlapping; a token's line is 1 + the line breaks up to its end |
| LexingFacts.ScanFromErrors | Scanner.ts:25-107 | every scan report is `Unexpected character.` or `Unterminated string.`, on a line between the first and the last |
| LexingFacts.UnterminatedString | Scanner.ts:150-153 | a quote with no closing quote emits no token, makes one report on the last line, and the scan reaches the end |
| LexingFacts.ClosedString | Scanner.ts:155-158 | a closed string's lexeme keeps both quotes, its literal is the text between them, and its line is that of the closing quote |
| LexingFacts.NumberLexeme | Scanner.ts:165-184 | a number lexeme is digits, optionally a dot and more digits; it is maximal, and the dot is taken only when a digit follows |
| LexingFacts.TrailingDot | Scanner.ts:171-178 | `1.` scans as NUMBER `1`, then DOT, then EOF |
| LexingFacts.WordLexeme | Scanner.ts:186-199 | a word is a maximal run of letters, digits and underscores; it is IDENTIFIER exactly when it is not a reserved word, else the table's kind |
| LexingFacts.KeywordKinds | Scanner.ts:219-236 | the keyword table maps no word to IDENTIFIER or EOF |
| LexingFacts.ExactKeywords | Scanner.ts:193-196 | `class` is CLASS and `classroom` is IDENTIFIER |
| LexingFacts.TriviaSource | Scanner.ts:28-35 | input made only of spaces, tabs, carriage returns, line breaks and `//` comments, in any order, yields EOF alone, on line 1 + its line breaks, with no report |
| LexingFacts.TriviaFrom | Scanner.ts:83-92 | from any position, blanks, line breaks and comments emit no token and no report; a comment stops before its line break, which is then counted |
| LexingFacts.CommentLines | Scanner.ts:83-92 | `// a`, a line break, `  // b` and a line break yield EOF alone on line 3 |
| LexingFacts.BangEqualScan | Scanner.ts:67-82 | the whole source `!=` scans as one BANG_EQUAL token, then EOF |
| LexingFacts.BangScan | Scanner.ts:67-82 | the whole source `!` scans as BANG, then EOF |
| LexingFacts.WordKindAsWritten | Scanner.ts:193-196 | the lookup as written agrees with the corrected lookup on every word that is not an inherited object member |
| LexingFacts.PrototypeWordMisread | Scanner.ts:193-196 | `toString` scans as one word that is not reserved, yet the lookup as written gives it no IDENTIFIER kind; the corrected scan gives IDENTIFIER |
| LexingFacts.LookupAsWritten | Scanner.ts:193 | the lookup as written finds an own kind exactly for the keys of the table and an inherited member exactly for the names every plain object inherits |
| Scanning.Scanner.constructor | Scanner.ts:6-11 | a new scanner has no tokens, both cursors at 0 and line 1 |
| Scanning.Scanner.ScanTokens | Scanner.ts:13-23 | the loop leaves the cursor at the end, appends the whole scan's tokens and then one EOF token with the final line, and returns the token list |
| Scanning.Scanner.ScanToken | Scanner.ts:25-107 | one call moves the cursor and line and appends the token and report that ScanStep gives |
| Scanning.Scanner.AddPunctuation | Scanner.ts:37-66 | the punctuation cases append their one-character token |
| Scanning.Scanner.AddOperator | Scanner.ts:67-82 | the operator cases append the one- or two-character token by maximal munch |
| Scanning.Scanner.AddSlash | Scanner.ts:83-92 | the slash case skips a comment or appends SLASH |
| Scanning.Scanner.SkipComment | Scanner.ts:86-88 | the loop stops at the next line break or the end |
| Scanning.Scanner.Match | Scanner.ts:109-120 | advances exactly when the next character is the expected one, and says whether it did |
| Scanning.Scanner.Peek | Scanner.ts:122-128 | the character under the cursor, or NUL at the end |
| Scanning.Scanner.PeekNext | Scanner.ts:130-136 | the character after the cursor, or NUL past the end |
| Scanning.Scanner.Advance | Scanner.ts:138-140 | returns the character under the cursor and moves one on |
| Scanning.Scanner.ScanString | Scanner.ts:142-159 | the string loop and its report or token follow StringStep |
| Scanning.Scanner.ScanNumber | Scanner.ts:165-184 | the number loops and the fraction check follow NumberStep |
| Scanning.Scanner.SkipDigits | Scanner.ts:166-168 | the loop stops at the end of the run of digits |
| Scanning.Scanner.ScanIdentifier | Scanner.ts:186-199 | the word loop and the keyword lookup follow IdentifierStep |
| Scanning.Scanner.IsAtEnd | Scanner.ts:209-211 | true exactly when the cursor is at or past the end |
| Scanning.Scanner.AddToken | Scanner.ts:213-216 | appends one token with the text from start to the cursor and the current line |
| Scanning.Scanner.Report | Scanner.ts:104 | a report is appended with the current line and the message |
| Scanning.ScanSource | Lox.ts:59-61 | a fresh scanner run over a source returns the tokens and reports of ScanTokens |
| Grammar.Advanced | Parser.ts:131-134 | advance moves one token on except at EOF, and never leaves the token list |
| Grammar.AtEnd | Parser.ts:136-138 | the token under the cursor is EOF (definition) |
| Grammar.Check | Parser.ts:126-129 | false at EOF, otherwise whether the token under the cursor has the kind (definition) |
| Grammar.Matches | Parser.ts:109-118 | the token under the cursor is not EOF and has one of the kinds (definition) |
| Grammar.Operators | Parser.ts:27-70 | the operator kinds each binary level matches: `!=` `==`; `>` `>=` `<` `<=`; `-` `+`; `/` `*` (definition) |
| Grammar.Operand | Parser.ts:24-77 | the operand of a level is the next tighter level, or unary below factor; success consumes at least one token |
| Grammar.Parse | Parser.ts:11-18 | parse reports nothing exactly when it returns a tree, and reports at most one error |
| Grammar.Synchronize | Parser.ts:153-173 | synchronize never moves the cursor back or off the token list, and stays put at EOF |
| Grammar.Expression | Parser.ts:20-22 | expression is equality; a success consumes at least one token, a failure is at or after the start |
| Grammar.BinaryLevel | Parser.ts:24-77 | a binary level consumes at least one token when it succeeds and fails within the token list |
| Grammar.Fold | Parser.ts:27-31 | the loop of a binary level never moves the cursor back, and a failure inside it is after its start |
| Grammar.Unary | Parser.ts:79-87 | unary consumes at least one token when it succeeds |
| Grammar.Primary | Parser.ts:89-105 | primary consumes at least one token when it succeeds |
| Grammar.Group | Parser.ts:98-102 | the parenthesised branch consumes at least one token when it succeeds |
| Grammar.SyncLoop | Parser.ts:156-172 | the loop of synchronize stays within the token list and never moves back |
| GrammarFacts.ExpressionExplained | Parser.ts:20-22 | every tree expression builds is shaped, and every failure is explained by its token |
| GrammarFacts.LevelExplained | Parser.ts:24-77 | a binary level builds only shaped trees at least as tight as the level, or fails at a token that explains the message |
| GrammarFacts.OperandExplained | Parser.ts:24-77 | the operand of a level (the next tighter level, or unary below factor) builds only shaped trees tighter than the level, or fails at a token that explains the message |
| GrammarFacts.FoldExplained | Parser.ts:27-31 | folding to the left keeps trees shaped: the left operand is at least as tight and the right operand tighter than the operator |
| GrammarFacts.UnaryExplained | Parser.ts:79-87 | unary builds `!` / `-` nodes over unary trees, or primaries |
| GrammarFacts.PrimaryExplained | Parser.ts:89-105 | primary builds a literal or a group, or reports `Expect expression.` at a token that cannot begin an expression |
| GrammarFacts.NoExpressionStart | Parser.ts:104 | a token that no branch of unary or primary matches cannot begin an expression |
| GrammarFacts.GroupExplained | Parser.ts:98-102 | a missing `)` is reported as `Expect ')' after expression.` at a token that is not `)` |
| GrammarFacts.ParseReports | Parser.ts:11-18 | parse reports nothing exactly when it returns a tree, and the tree is shaped; otherwise it reports one error, at a token of the input, and the token explains the message |
| GrammarFacts.LevelFold | Parser.ts:24-77 | from the start of a shaped tree at least as tight as the level, a binary level reaches its loop with the whole tree as the left operand |
| GrammarFacts.LevelFoldBinary | Parser.ts:27-31 | a tree whose top operator belongs to the level is built by one more turn of the loop after its left operand |
| GrammarFacts.FoldStep | Parser.ts:27-31 | one turn of the loop takes the operator and the operand after it into a Binary node on the left |
| GrammarFacts.OperandRound | Parser.ts:24-77 | the operand of a level reads back a whole tighter shaped tree |
| GrammarFacts.UnaryRound | Parser.ts:79-87 | unary reads back a whole unary or primary tree |
| GrammarFacts.PrefixRound | Parser.ts:80-84 | a prefix operator and its operand read back as one Unary node |
| GrammarFacts.PrimaryRound | Parser.ts:89-102 | primary reads back a literal or a group |
| GrammarFacts.GroupRound | Parser.ts:98-102 | `(`, an expression's tokens and `)` read back as one Grouping |
| GrammarFacts.LevelRound | Parser.ts:24-77 | a binary level reads back a whole shaped tree followed by a looser token |
| GrammarFacts.ParseUnparsed | Parser.ts:11-18 | writing a shaped tree back out as tokens, then EOF, and parsing them gives the same tree and no report |
| GrammarFacts.SubtractionGroupsLeft | Parser.ts:55-65 | `1 - 2 - 3` parses as (1 - 2) - 3 |
| GrammarFacts.ProductBindsTighter | Parser.ts:55-77 | `1 + 2 * 3` parses as 1 + (2 * 3) |
| GrammarFacts.PrefixNests | Parser.ts:79-87 | `- - 1` parses as -(-1) |
| GrammarFacts.TrailingTokensIgnored | Parser.ts:11-13 | for `1 2`, expression stops on `2` and parse returns the literal 1 with no report |
| GrammarFacts.NothingToParse | Parser.ts:104 | EOF alone is reported as `Expect expression.` at EOF, and parse returns no tree |
| GrammarFacts.UnclosedGroup | Parser.ts:120-124 | `(1` is reported as `Expect ')' after expression.` at EOF, and parse returns no tree |
| GrammarFacts.SyncLoopStops | Parser.ts:156-172 | the loop stops at the first boundary: EOF, just after a semicolon, or just before a statement keyword |
| GrammarFacts.SynchronizeStops | Parser.ts:153-173 | synchronize advances once, then stops at the first boundary after that, or stays at EOF |
| Parsing.Parser.constructor | Parser.ts:7-9 | a new parser is at the first token of its list |
| Parsing.Parser.Parse | Parser.ts:11-18 | parse returns the expression's tree, or no tree after exactly one report |
| Parsing.Parser.Expression | Parser.ts:20-22 | the method follows Grammar.Expression: tree, cursor and reports |
| Parsing.Parser.Equality | Parser.ts:24-34 | the loop folds `!=` / `==` operands to the left, as BinaryLevel at equality |
| Parsing.Parser.Comparison | Parser.ts:36-53 | the loop folds `>` `>=` `<` `<=` operands to the left, as BinaryLevel at comparison |
| Parsing.Parser.Term | Parser.ts:55-65 | the loop folds `-` / `+` operands to the left, as BinaryLevel at term |
| Parsing.Parser.Factor | Parser.ts:67-77 | the loop folds `/` / `*` operands to the left, as BinaryLevel at factor |
| Parsing.Parser.Unary | Parser.ts:79-87 | the method follows Grammar.Unary |
| Parsing.Parser.Primary | Parser.ts:89-105 | the method follows Grammar.Primary, including the `Expect expression.` report at the current token |
| Parsing.Parser.Group | Parser.ts:98-102 | the parenthesised branch follows Grammar.Group, including the missing `)` report |
| Parsing.Parser.Match | Parser.ts:109-118 | advances exactly one token when the token under the cursor is not EOF and has one of the kinds; otherwise the cursor is unchanged |
| Parsing.Parser.Consume | Parser.ts:120-124 | takes the expected token, or reports the message at the current token and moves nothing |
| Parsing.Parser.Check | Parser.ts:126-129 | false at EOF, otherwise whether the token has the kind |
| Parsing.Parser.Advance | Parser.ts:131-134 | moves one token on except at EOF, and returns the previous token |
| Parsing.Parser.Peek | Parser.ts:140-142 | the token under the cursor (definition) |
| Parsing.Parser.IsAtEnd | Parser.ts:136-138 | true exactly on the EOF token |
| Parsing.Parser.Previous | Parser.ts:144-146 | the token before the cursor, which exists once the cursor has moved |
| Parsing.Parser.Error | Parser.ts:148-151 | appends one report of the token and the message |
| Parsing.Parser.Synchronize | Parser.ts:153-173 | the loop leaves the cursor where Grammar.Synchronize says |
| Parsing.ParseTokens | Parser.ts:9-18 | a fresh parser over a token list ending in EOF returns the tree and the reports of Grammar.Parse |

## Left out

- Lox.ts is not part of this model apart from `run` creating a scanner:
  - the REPL and file reading;
  - printing the tokens;
  - the `hadError` flag and the exit codes;
  - the text `Lox.report` prints.
- utils.ts (console input and output) and tool/GenerateAst.ts (an offline code generator) are not part of this model.
- The number literal's value is kept as its lexeme, not as a JavaScript number from `parseFloat`.
- Printing a number uses `Numerals.NumberText` in place of JavaScript number formatting: the shortest decimal with the same value. Exponent notation, and rounding of numerals longer than a double holds, are not modelled.
- `Token.toString` (debug text) is left out, and so is `TokenType`, whose file is not part of this model. The token kinds are the cases the scanner and the parser use.
- Exceptions are modelled as values: a failed rule is `Failed(at, message)` or `None`, and the `ParseError` object is not modelled.
- `Parsing.Parser.constructor`, `Parsing.ParseTokens`: require a token list that ends with EOF, as every scan does. On a list without EOF the source reads past the end of the array, and that case is not modelled.
- `Parsing.Parser.Previous`: returns `None` where the source reads index -1 and gets `undefined`. This happens when `synchronize` starts on a list whose first token is EOF: its `advance` returns `previous()` with the cursor at 0.
- `Scanning.Scanner.ScanIdentifier`: follows the corrected keyword lookup of the Findings row (own keys of the table only), not the lookup as written, which also finds the names an object inherits.
- Strings are sequences of Dafny characters. JavaScript's UTF-16 code units and surrogate pairs are not modelled.
- Several branches of `scanToken` are methods of their own: `AddPunctuation`, `AddOperator`, `AddSlash`, `SkipComment`, and `SkipDigits` for `number`. Primary's parenthesised branch is the method `Parser.Group`. The behaviour is unchanged.
- Both classes carry an `errors` field that the source does not have. `Scanning.Scanner.Report` and `Parsing.Parser.Error` append to it where the source calls `Lox.error`, a static sink outside the class.
- `synchronize` is not called by `parse` in the source. It is modelled and proved on its own, and no caller is modelled.
- The `switch` in `synchronize` is the predicate `Grammar.StartsStatement` over the same eight kinds.

## Findings

| source | as written | input that shows it | evidently intended | confidence | as-written member | corrected member |
|---|---|---|---|---|---|---|
| Scanner.ts:193-196 | `Keywords[text]` on a plain object literal also finds members the object inherits from the object prototype, so `type == null` is false for them and the token gets a function as its kind | the source `toString` (also `valueOf`, `constructor`, ...) | only the sixteen reserved words get a keyword kind; every other word is IDENTIFIER | not executed; high (plain object lookup semantics) | LexingFacts.PrototypeWordMisread | Lexing.KeywordKind (proved in LexingFacts.WordLexeme) |
