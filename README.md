# Strategy language parser, modelled in Dafny

This project models the front end of the strategy language of the game: the single file
`Parser/src/StrategyParser.java`. That file holds four things:

- a lexer that turns a source text into tokens. It skips whitespace and `#` comments, reads
  numbers as 64-bit `long` values, reads words and looks them up in a keyword table, and reads
  one-character symbols. At the end it appends an end-of-input marker.
- the abstract syntax of statements and expressions;
- a recursive-descent `Parser` object that walks the token list with a cursor `current`;
- the entry point `parse`, which lexes a text and then parses it.

Each failure of the lexer or the parser is a `ParseException` carrying a message, optionally
a lexeme, and a position. Here it is an `Error` value inside a `Result`.

The modules follow the source:

- `Tokens` and `Errors` hold the token types, the tokens, the failures and the result types.
- `Ast` holds the syntax trees and the shapes that operator precedence gives them.
- `Lexer` holds the character classes, the keyword and symbol tables, the function `Scan`
  that specifies the scan loop, and the imperative `Lex`, proved equal to `Scan`.
- `LexerFacts` characterises the lexer's output declaratively. A tokenization is a split of
  the text into gaps (whitespace and comments) and maximal tokens. `Scan` succeeds with a
  list exactly when the list is that split of the text. Its failures are characterised too.
- `Grammar` gives each parse method a function over a token list and an index. The function
  returns the value and the index just past it, or the failure.
- `StrategyParser` holds the `Parser` class: the cursor `current` over a token list, updated
  in place. Each parse method is proved to agree with its `Grammar` function, and `Parse` to
  equal the function `ParseText`, which lexes and then parses.
- `ParseFacts` holds properties of the parser: error positions and messages, the shapes of
  parsed expressions, and that an empty strategy is rejected.
- `Printer`, `Spelling`, `RoundTrip` and `PrintedText` are a partner the source does not have.
  `Printer` is a printer from syntax trees back to tokens and text. The other three prove
  that parsing reads back every well-shaped strategy the printer writes: first from its
  tokens, then from its text through the lexer.
- `Cases` works through a few small programs: operator precedence and associativity, a missing
  direction, a keyword prefix in a name, and one printed assignment read back.

## Model

| member | source | states |
|---|---|---|
| Ast.LevelsNest | Parser/src/StrategyParser.java:248-290 | each precedence level of the expression grammar contains the tighter ones: a primary is a power, a power a product, a product a sum |
| Lexer.ParseLong | Parser/src/StrategyParser.java:86-91 | a digit run has a `long` value exactly when its decimal value is at most 2^63 - 1, and then that value is its decimal value |
| Lexer.DigitsEnd | Parser/src/StrategyParser.java:84 | the digit loop stops at the first non-digit after the start, or at the end of the text, and every character it passed is a digit |
| Lexer.WordEnd | Parser/src/StrategyParser.java:98-99 | the word loop stops at the first character that is neither a letter nor a digit, and every character it passed is one |
| Lexer.CommentEnd | Parser/src/StrategyParser.java:77-80 | a comment runs to the first newline (which it leaves unread) or to the end of the text |
| Lexer.StepAt | Parser/src/StrategyParser.java:69-115 | one pass of the scan loop either fails or moves strictly forward, never past the end of the text |
| Lexer.Scan | Parser/src/StrategyParser.java:65-120 | on success, the token list ends with the end marker at the text's length |
| Lexer.SkipComment | Parser/src/StrategyParser.java:77-80 | the comment loop stops where `CommentEnd` says |
| Lexer.ReadNumber | Parser/src/StrategyParser.java:82-94 | the number branch reads the maximal digit run and emits its `long` value, or fails with "number out of range" citing the run, as `StepAt` specifies |
| Lexer.ReadWord | Parser/src/StrategyParser.java:96-106 | the word branch reads the maximal letter-or-digit run after a letter, and emits a keyword token when the word is in the keyword table and an identifier otherwise, as `StepAt` specifies |
| Lexer.ScanAdvances | Parser/src/StrategyParser.java:68-118 | one pass of the scan loop keeps the loop invariant: the rest of the scan from the new position, after the tokens read so far, is the scan from the start |
| Lexer.Lex | Parser/src/StrategyParser.java:65-120 | the lexer's loop returns exactly `Scan(src, 0)` |
| LexerFacts.ScanIff | Parser/src/StrategyParser.java:65-120 | the scan succeeds with a token list if and only if that list splits the text into gaps and maximal, well-formed tokens, followed by the end marker |
| LexerFacts.LexSucceeded | Parser/src/StrategyParser.java:65-120 | a lexed token list ends with the one end marker at the text's length. Every other token is well formed, has its lexeme at its position in the text, and is not the end marker. Positions strictly increase |
| LexerFacts.TokenizationEach | Parser/src/StrategyParser.java:82-113 | every token of a tokenization occurs in the text at its own position and is well formed |
| LexerFacts.TokenizationOrdered | Parser/src/StrategyParser.java:65-120 | the tokens of a tokenization appear in strictly increasing positions |
| LexerFacts.ScanFailed | Parser/src/StrategyParser.java:87-115 | when lexing fails, it has split the text up to the failure position. There it found either a character no branch accepts ("unexpected character") or a digit run above 2^63 - 1 ("number out of range", citing the run) |
| LexerFacts.UnexpectedCharacterFails | Parser/src/StrategyParser.java:115 | a character that is not whitespace, `#`, a digit, a letter or a symbol, met where a token would start, is where lexing fails, with that character and position |
| LexerFacts.NumberOutOfRangeIff | Parser/src/StrategyParser.java:86-91 | a digit run met where a token would start makes lexing fail with "number out of range" at that run if and only if its value exceeds 2^63 - 1 |
| LexerFacts.GapScan | Parser/src/StrategyParser.java:72-80 | whitespace and comments leave the scan unchanged |
| LexerFacts.TokenScan | Parser/src/StrategyParser.java:82-113 | a well-formed token that occurs at an offset is what the scan loop emits there, and the loop continues right after it |
| Grammar.Advance | Parser/src/StrategyParser.java:326-329 | the cursor moves by one, except at the end marker, where it stays |
| Grammar.Consume | Parser/src/StrategyParser.java:321-324 | succeeds exactly when the current token has the expected type, returning it and moving past it; otherwise fails at the current token with the given message |
| Grammar.Strategy | Parser/src/StrategyParser.java:166-171 | a parsed strategy is not empty, and when the operator tokens are spelled as the lexer spells them, every statement in it is well shaped |
| Grammar.StatementsUntilEnd | Parser/src/StrategyParser.java:168 | the statement loop stops at the end marker. It adds nothing exactly when it starts there, and it only appends to the statements already read |
| Grammar.Statement | Parser/src/StrategyParser.java:173-184 | a statement consumes at least one token and, with lexer-spelled operators, is well shaped |
| Grammar.IfStatement | Parser/src/StrategyParser.java:186-196 | an `if` statement parses to an `If` node that consumes tokens and is well shaped |
| Grammar.WhileStatement | Parser/src/StrategyParser.java:198-205 | a `while` statement parses to a `While` node that consumes tokens and is well shaped |
| Grammar.BlockStatement | Parser/src/StrategyParser.java:207-213 | a block parses to a `Block` node whose statements are well shaped |
| Grammar.BlockItems | Parser/src/StrategyParser.java:209-210 | the block loop stops at `}` or at the end marker, and the statements it reads are well shaped |
| Grammar.MoveStatement | Parser/src/StrategyParser.java:215-219 | a `move` statement reads exactly two tokens |
| Grammar.ShootStatement | Parser/src/StrategyParser.java:221-226 | a `shoot` statement reads its keyword, a direction and an expression, and is well shaped |
| Grammar.AssignmentStatement | Parser/src/StrategyParser.java:228-233 | an assignment's name is the identifier's lexeme, and its value is a well-shaped expression |
| Grammar.DirectionAt | Parser/src/StrategyParser.java:235-246 | succeeds exactly when the token is a direction word, giving its direction. Otherwise it fails with "expected direction" at that token, or at the token before it when it is the end marker (where `advance` does not move) |
| Grammar.Expression | Parser/src/StrategyParser.java:248 | an expression stops before a token that is not an operator, and has the shape of a sum |
| Grammar.AddSub | Parser/src/StrategyParser.java:250-258 | a sum has left-nested `+`/`-` nodes over products, and stops before any operator token |
| Grammar.AddSubTail | Parser/src/StrategyParser.java:252-256 | the `+`/`-` loop keeps the sum shape of what it has built so far |
| Grammar.MulDivMod | Parser/src/StrategyParser.java:260-268 | a product has left-nested `*`/`/`/`%` nodes over powers, and stops before any multiplicative or `^` operator |
| Grammar.MulDivModTail | Parser/src/StrategyParser.java:262-266 | the `*`/`/`/`%` loop keeps the product shape of what it has built so far |
| Grammar.Power | Parser/src/StrategyParser.java:270-278 | `^` nests to the right over primaries, and a power stops before any `^` |
| Grammar.Primary | Parser/src/StrategyParser.java:280-290 | a primary consumes at least one token and has the primary shape |
| Grammar.ParenExpression | Parser/src/StrategyParser.java:292-297 | a parenthesised expression gives a `Paren` node around a sum |
| Grammar.InfoExpression | Parser/src/StrategyParser.java:299-302 | `ally` and `opponent` read one token and carry no direction |
| Grammar.NearbyExpression | Parser/src/StrategyParser.java:304-308 | `nearby` reads two tokens and carries a direction |
| StrategyParser.Parser.constructor | Parser/src/StrategyParser.java:159-164 | the parser starts with its cursor at the first token |
| StrategyParser.Parser.Advance | Parser/src/StrategyParser.java:326-329 | moves the cursor as `Grammar.Advance` does and returns the token before the new cursor |
| StrategyParser.Parser.Match | Parser/src/StrategyParser.java:310-315 | steps past the current token exactly when its type is among those given, and otherwise leaves the cursor alone |
| StrategyParser.Parser.Consume | Parser/src/StrategyParser.java:321-324 | agrees with `Grammar.Consume` |
| StrategyParser.Parser.ParseStrategy | Parser/src/StrategyParser.java:166-171 | returns what `Grammar.Strategy` gives from the starting cursor |
| StrategyParser.Parser.ParseStatement | Parser/src/StrategyParser.java:173-184 | agrees with `Grammar.Statement`: the same statement with the cursor just past it, or the same failure |
| StrategyParser.Parser.ParseIfStatement | Parser/src/StrategyParser.java:186-196 | agrees with `Grammar.IfStatement` |
| StrategyParser.Parser.ParseWhileStatement | Parser/src/StrategyParser.java:198-205 | agrees with `Grammar.WhileStatement` |
| StrategyParser.Parser.ParseBlockStatement | Parser/src/StrategyParser.java:207-213 | agrees with `Grammar.BlockStatement` |
| StrategyParser.Parser.ParseMoveStatement | Parser/src/StrategyParser.java:215-219 | agrees with `Grammar.MoveStatement` |
| StrategyParser.Parser.ParseShootStatement | Parser/src/StrategyParser.java:221-226 | agrees with `Grammar.ShootStatement` |
| StrategyParser.Parser.ParseAssignmentStatement | Parser/src/StrategyParser.java:228-233 | agrees with `Grammar.AssignmentStatement` |
| StrategyParser.Parser.ParseDirection | Parser/src/StrategyParser.java:235-246 | agrees with `Grammar.DirectionAt` |
| StrategyParser.Parser.ParseExpression | Parser/src/StrategyParser.java:248 | agrees with `Grammar.Expression` |
| StrategyParser.Parser.ParseAddSub | Parser/src/StrategyParser.java:250-258 | agrees with `Grammar.AddSub` |
| StrategyParser.Parser.ParseMulDivMod | Parser/src/StrategyParser.java:260-268 | agrees with `Grammar.MulDivMod` |
| StrategyParser.Parser.ParsePower | Parser/src/StrategyParser.java:270-278 | agrees with `Grammar.Power` |
| StrategyParser.Parser.ParsePrimary | Parser/src/StrategyParser.java:280-290 | agrees with `Grammar.Primary` |
| StrategyParser.Parser.ParseParenExpression | Parser/src/StrategyParser.java:292-297 | agrees with `Grammar.ParenExpression` |
| StrategyParser.Parser.ParseInfo | Parser/src/StrategyParser.java:299-302 | agrees with `Grammar.InfoExpression` |
| StrategyParser.Parser.ParseNearby | Parser/src/StrategyParser.java:304-308 | agrees with `Grammar.NearbyExpression` |
| StrategyParser.Parse | Parser/src/StrategyParser.java:343-345 | lexing and then parsing gives `ParseText(src)`: the first lexical failure, or else what the grammar makes of the tokens |
| ParseFacts.LexedOperatorsSpelled | Parser/src/StrategyParser.java:108-113 | every operator token the lexer emits has the one-character lexeme of its type |
| ParseFacts.WellFormedOperatorSpelled | Parser/src/StrategyParser.java:51-63 | a well-formed operator token is spelled by its symbol |
| ParseFacts.ParsedIsWellShaped | Parser/src/StrategyParser.java:166-290 | a text that parses gives a non-empty strategy, and every expression in it nests as the precedence and associativity of the grammar say |
| ParseFacts.EmptyStrategyFails | Parser/src/StrategyParser.java:166-171 | the strategy fails at once if and only if the first token is the end marker, and then with "expected at least one statement" at that marker |
| ParseFacts.NothingToParse | Parser/src/StrategyParser.java:166-171 | a text of only whitespace and comments fails with "expected at least one statement" at its end |
| ParseFacts.ExpressionStart | Parser/src/StrategyParser.java:280-290 | an expression can start only with a number, a name, `(`, `ally`, `opponent` or `nearby`; any other token is an "expected expression" failure there. A number, name, `ally` or `opponent` is read as one token |
| ParseFacts.StatementStart | Parser/src/StrategyParser.java:173-184 | a statement can start only with `if`, `while`, `{`, `done`, `move`, `shoot` or a name; any other token is an "expected statement" failure there. An assignment starts with a name |
| ParseFacts.NearbyNeedsDirection | Parser/src/StrategyParser.java:304-308 | `nearby` parses exactly when a direction word follows, and otherwise fails with "expected direction" at that token, or at `nearby` itself at the end of input |
| ParseFacts.MoveNeedsDirection | Parser/src/StrategyParser.java:215-219 | `move` parses exactly when a direction word follows, and otherwise fails with "expected direction" at that token, or at `move` itself at the end of input |
| Printer.NumeralValue | Parser/src/StrategyParser.java:84-88 | the printed numeral of a number is a digit run whose decimal value is that number |
| Printer.NumeralParses | Parser/src/StrategyParser.java:86-91 | the printed numeral of any number up to 2^63 - 1 is a digit run that `Long.parseLong` reads back as that same number |
| RoundTrip.ExpressionRoundTrip | Parser/src/StrategyParser.java:248-308 | an expression of sum shape, spelled in the tokens and followed by a non-operator, is read back exactly and the cursor stops right after it |
| RoundTrip.StatementRoundTrip | Parser/src/StrategyParser.java:173-246 | a well-shaped statement, spelled in the tokens, is read back exactly and the cursor stops right after it |
| RoundTrip.BlockItemsRoundTrip | Parser/src/StrategyParser.java:207-213 | the block loop reads back every statement spelled before the closing `}` |
| RoundTrip.StatementsRoundTrip | Parser/src/StrategyParser.java:166-171 | the strategy loop reads back every statement spelled before the end marker |
| RoundTrip.SpelledRoundTrip | Parser/src/StrategyParser.java:166-171 | a non-empty strategy of well-shaped statements, spelled in a token list that ends with the end marker, is what the parser returns |
| RoundTrip.PrintedRoundTrip | Parser/src/StrategyParser.java:166-308 | parsing the printer's tokens of a non-empty well-shaped strategy gives the strategy back |
| PrintedText.TextScan | Parser/src/StrategyParser.java:65-120 | lexing the printer's text gives exactly the printer's tokens, each placed at its offset in the text, then the end marker |
| PrintedText.PlaceSplits | Parser/src/StrategyParser.java:65-120 | the printer's text splits into single spaces and the printer's tokens, at the offsets the printer gave them |
| PrintedText.TextRoundTrip | Parser/src/StrategyParser.java:343-345 | parsing the printed text of a non-empty, well-shaped, printable strategy gives the strategy back |
| Cases.PowerNestsRight | Parser/src/StrategyParser.java:270-278 | a number, `^`, a number, `^`, a number (as in `2^3^2`) parses with the second `^` nested inside the first |
| Cases.ProductBindsTighter | Parser/src/StrategyParser.java:250-268 | a number, `+`, a number, `*`, a number (as in `1+2*3`) parses as the first number plus the product of the other two |
| Cases.NearbyWithoutDirection | Parser/src/StrategyParser.java:304-308 | a name, `=`, `nearby` and the end marker (as in `x=nearby`) fail with "expected direction" at `nearby` |
| Cases.NearbyTextFails | Parser/src/StrategyParser.java:343-345 | parsing the text `x=nearby` fails with "expected direction" at the `nearby` token at offset 2 |
| Cases.KeywordPrefixIsName | Parser/src/StrategyParser.java:96-106 | `if1=2` lexes to the name `if1`, `=`, the number 2 and the end marker: a keyword followed by a digit is one identifier |
| Cases.PrintedAssignmentReadsBack | Parser/src/StrategyParser.java:343-345 | `x = 1 + 2 * 3`, printed and parsed again, gives the same assignment |

## Left out

- Letters and digits are ASCII only. Java's `Character.isLetter` and `Character.isDigit` (lines 82, 96, 99) also accept Unicode letters and digits. Whitespace follows `Character.isWhitespace` in full.
- Source text is a sequence of `char`s. Java strings are UTF-16, and so are their positions, and the model does not treat surrogate pairs apart.
- The message text of `ParseException` is a tag (`Errors.Message`), not a formatted string. The message, the lexeme and the position are kept.
- The parser's cursor after a failure is not specified, since the failure aborts the whole parse (Java throws).
- Stack overflow on deeply nested input is not modelled: the recursion of the parse methods is unbounded here.
- StrategyParser.Parser.constructor: requires a token list that ends with the end marker. Java's constructor takes any list, but `peek` then indexes out of bounds, and `parse` only ever passes it the lexer's output, which ends with the marker.
- StrategyParser.Parser.ParseDirection: requires that the token before the cursor be `move`, `shoot` or `nearby`, as at its three call sites, so that `previous()` at the end marker is defined.
- `Parser/src/Test.java` and `Parser/src/NegativeTests.java` are not part of this model. Module `Cases` states a few small programs as lemmas, two of them (`x=nearby`, `if1=2`) from `NegativeTests.java`, stated on the test text itself. The remaining test programs are covered only by the general contracts.
- The printer (`Printer`) has no counterpart in the source. It writes a `Num` as a digit run, so a negative number cannot be printed as one token. `Var` names must be non-keyword words, and operators must be `+ - * / % ^`. The text round trip therefore requires `PrintableStmt`.
