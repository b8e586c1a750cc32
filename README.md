# Rumil front end in Dafny

A model of the front end of the Rumil language: the character lexer
(`lib/src/lexer.rs`), the token kinds and operator table
(`lib/src/token.rs`), the expression tree (`lib/src/expr.rs`) and the
recursive-descent expression parser (`lib/src/parser.rs`).

The model has five modules, one file each:

- `Wrappers` (`wrappers.dfy`): `Option` and `Result`.
- `Tokens` (`tokens.dfy`): the `TokenType` enumeration and the `Token` record.
  - `ParseOp` is the operator table.
  - `Spelling` is an independent spelling of every operator kind.
  - Lemmas prove that the two agree both ways.
- `Exprs` (`exprs.dfy`): the five expression nodes as one datatype, and the visitor's double dispatch.
  - `Binary`, `Unary`, `Literal` and `Grouping` each have a `new`, modelled by the datatype constructor of the same name. The source gives `Assign` no `new`; its datatype constructor stands for nothing callable there.
  - A visitor is a record of state-passing callbacks.
- `Lexing` (`lexing.dfy`): the lexer.
  - Every `read_*` step is specified by a pure function of the cursor state `LexState` (position, line, column, error count).
  - Lemmas state what each step takes and where it leaves the cursor.
  - The `Lexer` class has the source's fields. Each of its methods is proved to leave exactly the state its function specifies.
  - `Scan` is proved equal to `Scanned`.
- `Parsing` (`parsing.dfy`): the parser.
  - Every grammar rule is a pure function from a token list and a position to an `Outcome`: the tree or the error, and where the cursor stops.
  - The `Parser` class mirrors the source's methods and is proved to agree with those functions.
  - The main theorem is `ParseRoundTrip`. Parsing the tokens of any tree the grammar can build gives that tree back. This proves precedence, left associativity and grouping together. The tree keeps no parenthesis tokens, so a grouping's `(` and `)` are matched by kind, wherever the lexer placed them.
  - `ParsedReadsTree` is the converse: a successful parse read exactly the tokens of its tree.

The model follows the code as written. Several of its behaviours are easy to misread:

- Identifiers are runs of ASCII letters only. Digits and `_` neither start nor continue one.
- The line counter does not move inside a quoted literal. A literal that spans lines leaves the line count of later tokens too low (`lib/src/lexer.rs:156-205`).
- An unrecognized character ends the scan. `next_token` returns the EOF token for it, and `scan` stops at the first EOF (`Lexing.UnrecognizedEndsScan`). Nothing after it is scanned (`lib/src/lexer.rs:76-83`, `lib/src/lexer.rs:252-263`).
- Any single ASCII character other than a backslash is a valid char literal, including a newline, a tab, `'` and NUL.
- A single non-ASCII character is not a valid char literal, because `len()` counts UTF-8 bytes.
- The column of a token is moved back by the UTF-8 byte length of its text, not its character count.
- `(1 +` fails with an unexpected-token error on the EOF, not with the missing `)` error (`Parsing.UnfinishedTermExample`).

## Model

| member | source | states |
|---|---|---|
| Tokens.SpellingParses | lib/src/token.rs:79-141 | every operator kind is found in the table under its own spelling |
| Tokens.ParsedIsSpelling | lib/src/token.rs:79-141 | whatever kind the table finds for a string is an operator kind spelled exactly that string |
| Tokens.ParseOpExactly | lib/src/token.rs:79-141 | the table maps `s` to `k` if and only if `k` is an operator kind spelled `s`; it never yields a literal, comment or EOF kind |
| Tokens.ParseOpInjective | lib/src/token.rs:79-141 | no kind is found under two different spellings |
| Tokens.SpellingLength | lib/src/token.rs:79-141 | every spelling has one to three characters, and the three-character ones are exactly `<<=`, `>>=` and `..?` |
| Tokens.SpellingPrefixIsSpelling | lib/src/token.rs:79-141 | the first character of every spelling is itself a spelling, so a one-character operator is always there to fall back on |
| Tokens.NotInTable | lib/src/token.rs:139-139 | `;`, `..`, the quote characters, whitespace, a letter, a digit and the empty string are not in the table |
| Tokens.SpellingIsAscii | lib/src/token.rs:79-141 | every spelling is ASCII |
| Exprs.Accept | lib/src/expr.rs:20-94 | each node calls the visitor method for its own node type, with itself, and nothing else |
| Lexing.DispatchClassesDisjoint | lib/src/lexer.rs:48-75 | the character classes `next_token` tries in turn never overlap, so the order of the tests decides nothing |
| Lexing.Utf8LenVersusLength | lib/src/lexer.rs:89-89 | a string has at least as many bytes as characters, and the same number if and only if it is all ASCII |
| Lexing.CharLiteralValidity | lib/src/lexer.rs:313-379 | a char literal is valid if and only if it is one ASCII character other than a backslash, or `\u` and one to eight hex digits, or an entry of the escape table |
| Lexing.UnicodeEscapeExample | lib/src/lexer.rs:321-341 | `\u041` is a valid char literal |
| Lexing.InvalidCharExamples | lib/src/lexer.rs:313-379 | the empty literal and the unknown escape `\q` are invalid |
| Lexing.NonAsciiCharExample | lib/src/lexer.rs:313-316 | a single non-ASCII character is an invalid char literal |
| Lexing.AfterWhitespace | lib/src/lexer.rs:101-110 | skipping whitespace never moves back, stops at a character that is not whitespace, and counts no error |
| Lexing.WhitespaceSkipped | lib/src/lexer.rs:101-110 | everything skipped is whitespace; the line moves on by the number of newlines skipped; the column is the distance from the last of them, or moves on by the distance skipped when there is none |
| Lexing.LetterRunEnd | lib/src/lexer.rs:127-134 | the identifier loop stops at the end of the maximal run of ASCII letters |
| Lexing.IdentifierLexemeShape | lib/src/lexer.rs:127-134 | at a letter, `read_identifier` takes the maximal non-empty run of letters from the input, and moves the cursor and the column over exactly that run |
| Lexing.NumberEnd | lib/src/lexer.rs:137-152 | the number loop takes at least one character exactly when it starts at a digit; it stops after a digit, at a non-digit that is not a `.` followed by a digit |
| Lexing.NumberEndRun | lib/src/lexer.rs:137-152 | the number run is digits with `.` only strictly between two digits, and the Float flag is set exactly when a `.` was taken |
| Lexing.NumberLexemeShape | lib/src/lexer.rs:137-152 | at a digit, `read_number` takes a maximal run of digits with inner dots, as Float exactly when it holds a `.` and as Int otherwise, and moves the cursor over that run |
| Lexing.CommentEnd | lib/src/lexer.rs:210-217 | the comment loop stops at the first newline or the end of the input |
| Lexing.CommentLexemeShape | lib/src/lexer.rs:210-217 | at a `;`, `read_comment` takes everything up to, not including, the next newline or the end of the input |
| Lexing.OperatorLength | lib/src/lexer.rs:220-239 | the operator length is the longest of 3, 2 and 1 whose slice is in the table; every longer slice that fits is not in the table |
| Lexing.OperatorAlwaysMatches | lib/src/lexer.rs:63-66 | whenever `next_token` calls `read_operator`, some slice matches |
| Lexing.OperatorLexemeShape | lib/src/lexer.rs:220-247 | `read_operator` takes the longest spelling at the cursor; its kind is the one the table gives that spelling, and the cursor moves over it |
| Lexing.QuoteScan | lib/src/lexer.rs:176-191 | the quote loop as written never moves back |
| Lexing.QuoteScanBounded | lib/src/lexer.rs:176-191 | started inside the input, the quote loop as written stops inside it |
| Lexing.QuoteScanCharacterized | lib/src/lexer.rs:172-191 | from any point of a literal, the loop stops at the first unescaped closing quote or at the end of the input, and reports the literal closed exactly when it stopped at a closing quote |
| Lexing.QuoteScanOverrunsAtEnd | lib/src/lexer.rs:168-194 | when the opening quote is the last character, the loop as written stops one past the end of the input |
| Lexing.QuoteBody | lib/src/lexer.rs:168-193 | the corrected loop never ends past the input when its literal starts inside it |
| Lexing.QuoteBodyCharacterized | lib/src/lexer.rs:168-193 | the corrected loop stops at the first place the literal closes or the input ends; it reports the literal closed exactly when it closes there; when it is unclosed, it stopped at the end of the input |
| Lexing.QuoteLexemeShape | lib/src/lexer.rs:156-207 | the literal's kind comes from its opening quote; its text is what lies between the quotes; it counts one error when unclosed and one for an invalid closed char literal; it leaves the cursor past the closing quote with the line unchanged |
| Lexing.CreateTokenAt | lib/src/lexer.rs:87-98 | the token keeps its text, kind and line; its column is moved back by the text's byte length, plus 2 for a quoted kind |
| Lexing.EmitPlacement | lib/src/lexer.rs:87-98 | a lexeme that moved the cursor over its text and quotes is placed where it began, less the bytes beyond one per character |
| Lexing.NextTokenOf | lib/src/lexer.rs:36-84 | every token other than EOF consumes input, and no token un-reads any |
| Lexing.NextTokenDispatch | lib/src/lexer.rs:36-56 | at the end of the input the token is an empty EOF at the position from before the whitespace; a letter is read as an identifier and a digit as a number |
| Lexing.NextTokenDispatchQuoteOrOperator | lib/src/lexer.rs:58-69 | a quote is read as a quoted literal, and an operator character with `read_operator` |
| Lexing.NextTokenDispatchOther | lib/src/lexer.rs:71-83 | a `;` is read as a comment; any other character gives an EOF token, one more error, and the character stepped over |
| Lexing.NextTokenWellFormed | lib/src/lexer.rs:36-84 | every token other than EOF is well formed: identifiers are letters, numbers are digits with inner dots, an operator is spelled as the table says, and a comment is a `;` and the rest of its line |
| Lexing.NextTokenPosition | lib/src/lexer.rs:36-98 | a token other than EOF is placed at the line and column of its first character, less the bytes beyond one per character; EOF keeps the position from before the whitespace |
| Lexing.UnrecognizedEndsScan | lib/src/lexer.rs:77-83 | an unrecognized character ends the scan with one more error and nothing after it read |
| Lexing.ScanFromWellFormed | lib/src/lexer.rs:255-261 | every token the scan collects is well formed |
| Lexing.ScannedPolicy | lib/src/lexer.rs:252-287 | `scan` succeeds if and only if it collected tokens with no error, and then returns them, all well formed and none EOF; otherwise it reports no source code, or else the error count |
| Lexing.NoSourceReported | lib/src/lexer.rs:264-266 | input of only whitespace, or whose first character after whitespace has no rule, is reported as holding no source code |
| Lexing.DecimalString | lib/src/lexer.rs:273-276 | the count is written as a non-empty string of decimal digits without a leading zero |
| Lexing.DecimalRoundTrip | lib/src/lexer.rs:273-276 | the written digits read back as the count |
| Lexing.OneSyntaxError | lib/src/lexer.rs:267-276 | one error is reported as "1 syntax error encountered in" the file |
| Lexing.TwoSyntaxErrors | lib/src/lexer.rs:267-276 | two errors are reported in the plural |
| Lexing.Lexer.constructor | lib/src/lexer.rs:20-33 | a new lexer has read its first character: position 0, line 1, column 1, no errors |
| Lexing.Lexer.ReadChar | lib/src/lexer.rs:113-124 | the cursor steps to `next` and reads NUL past the end of the input; the column moves on by one; nothing else changes |
| Lexing.Lexer.SkipWhitespace | lib/src/lexer.rs:101-110 | leaves the state `AfterWhitespace` specifies |
| Lexing.Lexer.ReadIdentifier | lib/src/lexer.rs:127-134 | returns the text and leaves the state of `IdentifierLexeme` |
| Lexing.Lexer.ReadNumber | lib/src/lexer.rs:137-152 | returns the kind and text and leaves the state of `NumberLexeme` |
| Lexing.Lexer.ReadQuote | lib/src/lexer.rs:156-207 | returns the kind and text and leaves the state of `QuoteLexeme`, the corrected literal scan |
| Lexing.Lexer.ScanQuote | lib/src/lexer.rs:168-191 | the literal loop stops where `QuoteBody` says; it moves the column with the cursor, keeps the line, and counts one error exactly when the literal is unclosed |
| Lexing.Lexer.ReadComment | lib/src/lexer.rs:210-217 | returns the text and leaves the state of `CommentLexeme` |
| Lexing.Lexer.ReadOperator | lib/src/lexer.rs:220-247 | returns the kind and text and leaves the state of `OperatorLexeme` |
| Lexing.Lexer.CreateToken | lib/src/lexer.rs:87-98 | builds the token `CreateTokenAt` places |
| Lexing.Lexer.NextToken | lib/src/lexer.rs:36-84 | returns the token and leaves the state of `NextTokenOf` |
| Lexing.Scan | lib/src/lexer.rs:252-287 | returns exactly `Scanned`, whose policy `ScannedPolicy` states |
| Parsing.OpLevelExact | lib/src/parser.rs:91-145 | the operator list of each binary rule holds exactly the kinds of that binding level |
| Parsing.MatchesLevel | lib/src/parser.rs:62-80 | `match_types` with a level's list matches exactly a token of that binding level, and never EOF |
| Parsing.UnaryOpsExact | lib/src/parser.rs:148-156 | the list `unary` matches holds exactly `!` and `-` |
| Parsing.LiteralKindsExact | lib/src/parser.rs:159-169 | the list `primary` turns into literals holds exactly `_` and the five literal kinds |
| Parsing.EofAheadStep | lib/src/parser.rs:43-49 | stepping over a token that is not EOF keeps an EOF ahead |
| Parsing.ExpressionOf | lib/src/parser.rs:86-88 | `expression` stops before an EOF, consumes a token on success, names the token it failed on, and builds only well-shaped trees |
| Parsing.LevelOf | lib/src/parser.rs:91-145 | each binary rule stops before an EOF, consumes on success, and builds a well-shaped tree whose root binds no looser than the rule |
| Parsing.OperandOf | lib/src/parser.rs:91-145 | the operand of a binary rule binds strictly tighter than the rule |
| Parsing.LevelLoop | lib/src/parser.rs:94-100 | the loop of a binary rule stops before an EOF, names the token it failed on, and keeps the tree well shaped |
| Parsing.UnaryOf | lib/src/parser.rs:148-156 | `unary` stops before an EOF, consumes on success, and builds a unary node or a primary |
| Parsing.PrimaryOf | lib/src/parser.rs:159-179 | `primary` stops before an EOF, consumes on success, and builds a literal or a grouping |
| Parsing.GroupOf | lib/src/parser.rs:171-175 | after a `(`, reads an expression and requires a `)` after it; the error names the token found in its place |
| Parsing.UnaryRoundTrip | lib/src/parser.rs:148-179 | the tokens of any unary or primary tree are read back by `unary` as that tree, whatever follows |
| Parsing.GroupRoundTrip | lib/src/parser.rs:171-175 | the tokens of a grouping, with any `(` and `)` tokens at either end (matched by kind, as `check` and `expect` do), are read back as that grouping |
| Parsing.LevelRoundTrip | lib/src/parser.rs:91-145 | a tree that binds no looser than a rule, followed by a token that ends that rule, is read back whole by the rule |
| Parsing.LevelPrefixRoundTrip | lib/src/parser.rs:91-145 | left associativity: when an operator of the same level follows, the rule has read the tree and its loop goes on from there |
| Parsing.ParseRoundTrip | lib/src/parser.rs:183-202 | `parse` inverts flattening: a list that starts with the tokens of any well-shaped tree, parentheses matched by kind wherever they were placed, and goes on with a token that is no binary operator and an EOF ahead, parses to that tree |
| Parsing.ExpressionReadsTree | lib/src/parser.rs:86-89 | a successful `expression` read exactly the tokens of its tree and stopped at a token that is no binary operator |
| Parsing.LevelReadsTree | lib/src/parser.rs:91-145 | a successful binary rule read exactly the tokens of its tree and stopped at a token looser than its level |
| Parsing.OperandReadsTree | lib/src/parser.rs:91-145 | a successful operand read exactly the tokens of its tree and stopped at a token no tighter than the level |
| Parsing.LoopReadsTree | lib/src/parser.rs:94-100 | each turn of a level's loop appends exactly the operator and operand tokens to the tree read so far |
| Parsing.UnaryReadsTree | lib/src/parser.rs:148-156 | a successful `unary` read exactly the tokens of its tree |
| Parsing.PrimaryReadsTree | lib/src/parser.rs:159-179 | a successful `primary` read exactly the literal, or the parenthesised tokens of its grouping |
| Parsing.GroupReadsTree | lib/src/parser.rs:171-175 | after a `(`, a successful grouping ends just past the `)` that closes its inner tree's tokens |
| Parsing.ParsedReadsTree | lib/src/parser.rs:183-202 | the converse of `ParseRoundTrip`: when `parse` succeeds, the tree is well shaped, the list starts with its tokens (parentheses by kind) and the next token is no binary operator |
| Parsing.LeadingError | lib/src/parser.rs:86-156 | a failure in `unary` or below is what `expression` returns |
| Parsing.LeftAssociativeExample | lib/src/parser.rs:122-132 | `1 - 2 - 3` parses as `(1 - 2) - 3` |
| Parsing.PrecedenceExample | lib/src/parser.rs:122-145 | `1 + 2 * 3` parses as `1 + (2 * 3)` |
| Parsing.GroupingExample | lib/src/parser.rs:171-175 | `(1 + 2) * 3` with its parentheses at lexer positions parses as the grouping times 3 |
| Parsing.NestedUnaryExample | lib/src/parser.rs:148-156 | `- - 1` parses as `-(-1)` |
| Parsing.TrailingTokensExample | lib/src/parser.rs:183-202 | `1 2` parses as `1`, and the tokens after it are not looked at |
| Parsing.CloseParenExample | lib/src/parser.rs:177-178 | a lone `)` fails as an unexpected token, and `parse` reports the generic message |
| Parsing.IdentifierExample | lib/src/parser.rs:159-179 | an identifier is no primary and fails as an unexpected token |
| Parsing.MissingParenExample | lib/src/parser.rs:171-174 | `(1` fails in `expect` on the EOF with the missing-`)` message |
| Parsing.UnfinishedTermExample | lib/src/parser.rs:122-179 | `(1 +` fails as an unexpected token on the EOF |
| Parsing.ScannedTokensNeedEof | lib/src/lexer.rs:258-261 | a successful scan's tokens hold no EOF, so the parser needs one appended |
| Parsing.Parser.constructor | lib/src/parser.rs:13-18 | a new parser looks at the first token |
| Parsing.Parser.Finished | lib/src/parser.rs:24-26 | true exactly when the current token is EOF |
| Parsing.Parser.Peek | lib/src/parser.rs:29-33 | returns the current token |
| Parsing.Parser.Previous | lib/src/parser.rs:36-40 | returns the token before the cursor |
| Parsing.Parser.Advance | lib/src/parser.rs:43-49 | steps over the current token unless it is EOF, and returns the token before the cursor |
| Parsing.Parser.Check | lib/src/parser.rs:62-68 | true exactly when the current token has the kind and is not EOF |
| Parsing.Parser.Expect | lib/src/parser.rs:52-59 | consumes and returns a token of the kind, or fails on the current token with the message and does not move |
| Parsing.Parser.MatchTypes | lib/src/parser.rs:71-80 | consumes the current token exactly when its kind is one of the list and it is not EOF |
| Parsing.Parser.Expression | lib/src/parser.rs:86-88 | agrees with `ExpressionOf` on the result and the final cursor |
| Parsing.Parser.Equality | lib/src/parser.rs:91-101 | agrees with `LevelOf` at level 4 |
| Parsing.Parser.Comparison | lib/src/parser.rs:104-119 | agrees with `LevelOf` at level 3 |
| Parsing.Parser.Term | lib/src/parser.rs:122-132 | agrees with `LevelOf` at level 2 |
| Parsing.Parser.Factor | lib/src/parser.rs:135-145 | agrees with `LevelOf` at level 1 |
| Parsing.Parser.Operand | lib/src/parser.rs:91-145 | agrees with `OperandOf`: each level's operand rule is the next tighter one |
| Parsing.Parser.BinaryLevel | lib/src/parser.rs:91-145 | the loop shared by the four binary rules agrees with `LevelOf` |
| Parsing.Parser.Unary | lib/src/parser.rs:148-156 | agrees with `UnaryOf` |
| Parsing.Parser.Primary | lib/src/parser.rs:159-179 | agrees with `PrimaryOf` |
| Parsing.Parse | lib/src/parser.rs:183-202 | returns exactly `Parsed`: the tree of the leading expression, or the one generic message |

## Left out

- Logging is not modelled: `log_error`, `log_debug` and `debugging`. The messages the lexer and parser log are not modelled either.
- `peek` and `previous` build an error message each time they are called, because the argument of `expect` is evaluated eagerly. That side effect on the log is not modelled.
- The `Display` implementation of `Token` is not modelled, nor the colour codes it uses.
- Parse errors are values, not strings. `ParseError` carries the token found, plus the message for a failed `expect`. The formatted texts are not modelled; `parse` discards them in any case.
- `line`, `col` and `error_count` are `i32` in the source, and positions are `usize`. They are unbounded integers here, so overflow on inputs beyond 2^31 characters is not modelled.
- The expression nodes are trait objects in the source; here they are one datatype. A visitor's `&mut self` methods are modelled as functions that return the visitor's new state.
- The `Assign` node has neither a `new` nor a parser rule in the source, so no code builds one and no parse produces one.
- The node kinds listed only as comments at the end of `lib/src/expr.rs` do not exist in the source and are not modelled.
- The command line, file reading, the C++ front end and the foreign-function interface are not part of this model. This covers `src/main.rs`, `src/tokenizer.rs`, `src/cli/cli.cpp` and `src/rumil.cpp`.
- The parser panics when the cursor runs past the token list. It reaches the end only if no EOF token lies ahead, so every parser member requires one (`EofAhead`). `scan` leaves its EOF out, and no code in the repository passes its tokens to `parse` (`Parsing.ScannedTokensNeedEof`).
- Parsing.Parser.Advance: requires that the cursor is past the first token or not at an EOF. At index 0 on an EOF, `previous` would index position -1 and panic.
- Lexing.QuoteScan: its own contract states only that it never moves back. What it computes is stated by `QuoteScanCharacterized` and `QuoteScanOverrunsAtEnd`.
- A NUL character inside the input reads like the end of the input, as in the source. A NUL met after the first character of a quoted literal ends it there, reported unclosed. A NUL right after the opening quote is stepped over, because the loop tests only after stepping, and does not end the literal. Outside a literal, `next_token` returns EOF at a NUL.

## Findings

| source | as written | input that shows it | evidently intended | confidence | as-written member | corrected member |
|---|---|---|---|---|---|---|
| lib/src/lexer.rs:176-194 | The literal loop tests for the end of the input only after stepping. With the opening quote as the last character, it steps past the end and stops at `len + 1`. The slice `input[start..end]` then panics. | the one-character source `"` | an empty, unclosed literal and one scan error | high (not executed) | Lexing.QuoteScanOverrunsAtEnd | Lexing.QuoteBodyCharacterized |
