# logoscript transpiler core in Dafny

This project models the core of the logoscript transpiler. The transpiler turns a
small C-like language into a prefix/bracket turtle-graphics dialect:
`function`, `const`, `let`, `foreach`, `if`/`else`, `while` and `return`
become `to`/`to-report`, inlined constants, `let`, `foreach [x -> …]`,
`if`/`ifelse`, `while [c] […]` and `report`/`stop`.

The model covers four parts of the source:

- **Literal values** of `src/value.ts`.
  - The datatype `Values.Value` holds a number, a string, a boolean or a list. Its constructor is its tag, so the tag cannot disagree with the payload.
  - `Values.Make` models the constructor's run-time type test. `Values.ToText` models `toString`.
- **Tokens** of `src/token.ts`.
  - The closed enumeration `Tokens.TokenType` has 38 kinds.
  - Its names double as the scanner's reserved-word table, through `Tokens.Lookup`.
  - `Tokens.Token` is the token record.
- **The scanner** of `src/scanner.ts`.
  - `Scanning.Scanner` is a class. Its fields `start`, `current`, `line` and `column` and its token list are updated in place by `Advance`, `Match` and `AddToken`. The loops of `ScanTokens`, `Identifier`, `Number`, `String` and the comment skip are `while` loops with invariants.
  - Every method is proved to leave the fields exactly as the state-transition function of the same name in `ScanModel` says.
  - The properties of scanning are lemmas about those functions, in `ScanProperties` and `ScanOutcomes`.
- **The parser-emitter** of `src/compiler.ts`.
  - `Compiling.Compiler` is a class. Its cursor `current` and its `constants` map are updated in place by a recursive descent that returns output text.
  - Every method is proved to return the text, or the error, that the production of the same name in `ParseModel` yields, and to leave the cursor and the constants where that production says.
  - The properties of the generated text are lemmas in `ParseProperties`.
  - `Compiling.Transpile` runs the whole pipeline: a fresh scanner, then a fresh compiler over its tokens.

Failures are values, not exceptions. `Diagnostics.Failure` carries the error that `src/scanner.ts` or `src/compiler.ts` throws, with its message and the offending token:

- an illegal character;
- an unterminated string;
- a syntax error;
- a literal without a value that reached `toString`.

The model follows the code, including where it behaves differently from what a reader of the grammar might expect:

- the empty list prints as `( list  )` with two spaces;
- a NEWLINE statement emits `"\n"`;
- `and` is written ` or `;
- the body of `if` and `while` starts right after `)`, so `if (c) {` fails at the `{`;
- every assignment is rejected, because the token tested for being an identifier is the `=` itself;
- a source that ends in a newline never scans;
- a word right after a newline keeps the newline in its lexeme and is always an IDENTIFIER;
- a newline inside a string that is not followed by another newline is counted twice, and a quote directly after it does not close the string.

## Model

| member | source | states |
|---|---|---|
| Values.Make | src/value.ts:11-24 | A value is built exactly when the payload is a number, string, boolean or array. Its tag is the payload's run-time type and the payload is stored unchanged. Any other payload fails with "Invalid value type". |
| Values.MakeRoundTrip | src/value.ts:11-24 | Every value is what the constructor builds from its own payload, so tag and payload always agree and the "Unknown type" branch of `toString` cannot be reached. |
| Values.StringText | src/value.ts:29-30 | A string prints as its raw text between two double quotes: two characters longer, with nothing escaped. |
| Values.BooleanText | src/value.ts:31-32 | A boolean prints as `true` exactly when it is true, and as `false` exactly when it is false. |
| Values.EmptyListText | src/value.ts:33-34 | The empty list prints as `( list  )`, with two spaces. |
| Values.ListTextConcat | src/value.ts:33-34 | The list `a + b` prints as `( list `, the elements of `a`, one space, the elements of `b`, then ` )`, so element order is kept. |
| Values.InnerConcat | src/value.ts:34 | The element text of `a + b` is that of `a`, one space, then that of `b`. |
| Values.NestedListText | src/value.ts:33-34 | A nested list is printed in place, recursively, between the elements around it. |
| Values.SerialisationAmbiguous | src/value.ts:29-34 | Because nothing is escaped, two different lists (`["a", "b"]` and `["a\" \"b"]`) print the same text. |
| Values.ListTextSpacedForm | src/value.ts:33-34 | The text equals `( list` followed by each element after one space and ` )` exactly when the list is not empty. |
| Strings.CharAtSubstring | src/scanner.ts:162 | Inside the string `charAt(i)` is the one-character `substring(i, i + 1)`, and that character followed by the rest after it is the rest from `i`. |
| Strings.Substring | src/scanner.ts:175 | `substring` of in-range, ordered bounds is the slice between them. |
| Strings.Upper | src/scanner.ts:88 | Upper-casing keeps the length. |
| Strings.UpperLower | src/scanner.ts:88 | Upper-casing undoes lower-casing on text without lower-case letters. |
| Strings.JoinConcat | src/value.ts:34 | Joining two non-empty lists puts exactly one separator between their joins. |
| Diagnostics.SyntaxMessage | src/compiler.ts:14-16 | A syntax error's message starts with `[line: ` and ends with the offending lexeme and a closing quote. |
| Tokens.KindsEnumeration | src/token.ts:3-23 | The enumeration has 38 pairwise distinct kinds, contains every kind, and ends with EOF and ILLEGAL. |
| Tokens.Ordinal | src/token.ts:3-23 | A kind's numeric value is below 38, and the kind at that value is the kind itself. |
| Tokens.OrdinalIndexes | src/token.ts:3-23 | Numeric values and kinds are inverse: the kind at `i` has value `i`. |
| Tokens.NameInjective | src/token.ts:3-23 | Distinct kinds have distinct names, so the name table is a proper dictionary. |
| Tokens.LookupFrom | src/scanner.ts:88 | A kind found by name lookup carries that name. |
| Tokens.LookupFromName | src/scanner.ts:88 | Looking up a kind's name from any position at or before that kind finds it. |
| Tokens.LookupName | src/scanner.ts:88 | Every kind's name, not only a keyword's, looks up to that kind. |
| Tokens.LookupIff | src/scanner.ts:88 | A text is found exactly when it is the name of some kind, and the kind found carries that name. |
| Tokens.KeywordsBlock | src/token.ts:19-20 | The 13 keywords AND to WHILE are, in order, the kinds 23 to 35. |
| Tokens.NameCapitalised | src/token.ts:3-23 | Every kind name consists of capital letters and `_`. |
| Tokens.LowerNameLooksUp | src/scanner.ts:86-93 | The lower-case spelling of any kind name, once upper-cased, looks up to that kind. |
| ScanModel.Advance | src/scanner.ts:161-172 | `advance` moves the cursor forward, keeps `start`, and only appends tokens. It returns at most one character, and "" exactly when it has read past the end. |
| ScanProperties.MatchAgainstAdvance | src/scanner.ts:179-185 | `match` consumes exactly the character `advance` would read, on the same line and with the same tokens, but leaves the column where it was while `advance` bumps it; without that character it changes nothing. |
| ScanProperties.AddTokenSlice | src/scanner.ts:174-177 | `addToken` appends exactly one token: its text is the source from `start` to `current`, on the running line, at the running column less the text's length. The cursor, line and column stay where they are. |
| ScanModel.SkipComment | src/scanner.ts:52-57 | The comment loop stops on a newline or at the end. It appends no token. |
| ScanModel.WordRun | src/scanner.ts:82-84 | The word loop stops on a character that is not a letter, a digit or `_`. |
| ScanModel.Identifier | src/scanner.ts:81-94 | `identifier` appends at least one token and keeps `start`. |
| ScanModel.DigitRun | src/scanner.ts:97-99 | The digit loop stops on a non-digit. It appends no token. |
| ScanModel.Fraction | src/scanner.ts:101-109 | The fractional part only moves forward and appends no token. |
| ScanModel.NumberRun | src/scanner.ts:96-109 | The number loops only move forward and append no token. |
| ScanModel.Number | src/scanner.ts:96-112 | `number` appends at least one token and keeps `start`. |
| ScanModel.StringStep | src/scanner.ts:115-120 | One iteration of the string loop moves the cursor forward. |
| ScanModel.StringBody | src/scanner.ts:115-120 | The string loop stops on a quote or at the end of the source. |
| ScanModel.String | src/scanner.ts:114-133 | `string` either fails with "Unterminated string." or moves forward and appends a token. |
| ScanModel.CloseString | src/scanner.ts:122-132 | The end of `string` either fails with "Unterminated string." or consumes the quote and appends a token. |
| ScanModel.Operator | src/scanner.ts:48-51 | A one- or two-character operator appends one token and moves forward. |
| ScanModel.Dispatch | src/scanner.ts:37-78 | When the `switch` of `scanToken` succeeds, the cursor has not moved back, `start` is kept, and tokens are only appended. |
| ScanModel.ScanToken | src/scanner.ts:35-79 | When `scanToken` succeeds, it has moved the cursor forward and only appended tokens. |
| ScanModel.ScanLoop | src/scanner.ts:25-29 | When the loop of `scanTokens` succeeds, it stops at the end of the source and has only appended tokens. |
| ScanModel.ScanTokens | src/scanner.ts:24-33 | When `scanTokens` succeeds, it has appended tokens and the last one is EOF. |
| ScanModel.Scan | src/scanner.ts:14-33 | A successful scan of a fresh scanner is non-empty and ends with EOF. |
| ScanProperties.AdvanceReads | src/scanner.ts:161-172 | `advance` returns the character just before the new cursor, and never a newline. |
| ScanProperties.AdvanceOrdinary | src/scanner.ts:161-172 | Reading a character other than a newline moves one position and one column and changes nothing else. |
| ScanProperties.AdvanceThroughNewlines | src/scanner.ts:161-172 | `advance` reads through the run of `n` newlines under the cursor. The line grows by `n` and NEWLINE tokens for lines `line+1` to `line+n`, each at column 1, are appended. The character after the run is returned, at column 2 when a newline was read. |
| ScanProperties.DigitRunEnd | src/scanner.ts:97-99 | The digit loop stops exactly at the end of the digit run, one column per digit. |
| ScanProperties.WordRunEnd | src/scanner.ts:82-84 | The word loop stops exactly at the end of the run of letters, digits and `_`, one column per character. |
| ScanProperties.SkipCommentEnd | src/scanner.ts:55-57 | The comment loop stops just before the next newline, or at the end. |
| ScanProperties.SingleKindInjective | src/scanner.ts:38-47 | `( ) { } [ ] , - + *` map one-to-one to their kinds. |
| ScanProperties.LexemeIsSlice | src/scanner.ts:175 | A lexeme is the source text between `start` and `current`. |
| ScanProperties.SingleCharacterToken | src/scanner.ts:38-47 | Each one-character token is appended with its own kind and text at the running column. The cursor and the column move by one. |
| ScanProperties.OperatorToken | src/scanner.ts:48-51 | `! = < >` take the two-character kind exactly when `=` follows. The two-character token is reported one column left of its start, and the column moves by one only. |
| ScanProperties.WhitespaceSkipped | src/scanner.ts:62-66 | Space, carriage return and tab emit nothing and move one position and one column. |
| ScanProperties.SlashToken | src/scanner.ts:52-61 | A `/` not followed by `/` is a SLASH token. |
| ScanProperties.CommentSkipped | src/scanner.ts:52-57 | `//` discards everything up to, and not including, the next newline, and emits nothing. |
| ScanProperties.IllegalCharacterFails | src/scanner.ts:73-76 | Any character that starts no token fails with "Unexpected character: 'c'" and an ILLEGAL token at the character's own column. |
| ScanProperties.NumberLexemeShape | src/scanner.ts:96-109 | A number lexeme is a maximal digit run, then a `.` and a maximal digit run only when a digit follows the `.`. A lone `.` is not consumed. |
| ScanProperties.NumberToken | src/scanner.ts:96-112 | A digit starts one NUMBER token spanning that lexeme, at the column where it starts. Its literal is the number its lexeme denotes. |
| ScanProperties.WordToken | src/scanner.ts:81-94 | A letter or `_` starts one token spanning the maximal word, at the column where it starts. Its kind is the kind named by the upper-cased word, else IDENTIFIER. |
| ScanProperties.WordKindIgnoresCase | src/scanner.ts:86-93 | A word that upper-cases to a kind name has that kind, whatever its case. |
| ScanProperties.WordKindIdentifier | src/scanner.ts:86-93 | A word that upper-cases to no kind name is an IDENTIFIER. |
| ScanProperties.EofWord | src/scanner.ts:86-93 | The word `eof` scans as EOF. |
| ScanProperties.EqualWord | src/scanner.ts:86-93 | The word `equal` scans as EQUAL. |
| ScanProperties.NewlineWordIsIdentifier | src/scanner.ts:86-93 | A lexeme that begins with a newline names no kind, so it is an IDENTIFIER. |
| ScanProperties.WordAfterNewline | src/scanner.ts:24-29 | A word directly after a newline gives the NEWLINE token first. The word's lexeme keeps the newline, so it is an IDENTIFIER (even `function` or `const`) at column 0. |
| ScanProperties.AdvanceAfterNewline | src/scanner.ts:161-172 | A single newline followed by another character appends one NEWLINE token and reads that character at column 2. |
| ScanOutcomes.StringToken | src/scanner.ts:114-133 | A quoted text without newlines is one STRING token. Its lexeme keeps the quotes, its literal is the text between them, and it is reported at the column of the opening quote. |
| ScanOutcomes.ScanTokenString | src/scanner.ts:114-133 | A quote whose closing quote follows with no newline between them gives the STRING token of the text between them. |
| ScanOutcomes.UnterminatedString | src/scanner.ts:122-125 | A string whose closing quote never comes fails with "Unterminated string.". |
| ScanOutcomes.StringNewlineCountsTwice | src/scanner.ts:116-119 | A newline inside a string that is not followed by another newline raises the line by two. Its NEWLINE token carries the line two past the old one, and the character after it is read in the same step. |
| ScanOutcomes.QuoteAfterNewlineUnterminated | src/scanner.ts:114-125 | The source `"a`, newline, `"` is unterminated: the quote after the newline does not close the string. |
| ScanOutcomes.ScanTokenBeforeEnd | src/scanner.ts:35-79 | Before a final newline, every lexeme either fails or stops short of the last character. |
| ScanOutcomes.ScanLoopFails | src/scanner.ts:24-29 | Scanning a source that ends in a newline, from any position inside it, fails. |
| ScanOutcomes.TrailingNewlineFails | src/scanner.ts:161-172 | A source that ends in a newline never scans: it fails, as an unexpected empty character read past the end unless an unterminated string or an earlier character failed first. |
| ScanOutcomes.LoneNewlineFails | src/scanner.ts:68-77 | The source consisting of one newline fails with "Unexpected character: ''" on line 2. |
| ScanOutcomes.ScanEndsWithEof | src/scanner.ts:24-33 | A successful scan stops at the end of the source. Its tokens are the loop's tokens followed by one EOF token at the running line and column. |
| ScanOutcomes.RescanAppendsEof | src/scanner.ts:24-33 | Calling `scanTokens` again appends exactly one more EOF token and changes nothing else. |
| ScanOutcomes.ScanLoopKeeps | src/scanner.ts:24-29 | The scan loop only appends tokens whose literal, if any, is a scanned number or string. |
| ScanOutcomes.ScanLiteralsFit | src/scanner.ts:111 | Every token of a successful scan carries a literal only as a NUMBER whose value is its own lexeme, or as a STRING holding a string. |
| ScanOutcomes.NumberWord | src/scanner.ts:86-93 | The word `number` scans as the kind NUMBER (with no literal). |
| ScanOutcomes.StringWord | src/scanner.ts:86-93 | The word `string` scans as the kind STRING (with no literal). |
| Scanning.Scanner.constructor | src/scanner.ts:14-22 | A new scanner holds the source, no tokens, cursor 0, line 1 and column 1. |
| Scanning.Scanner.Advance | src/scanner.ts:161-172 | Returns the character and leaves the fields as `ScanModel.Advance` does: newlines counted and their tokens appended. |
| Scanning.Scanner.Match | src/scanner.ts:179-185 | Consumes the expected character exactly when it is next, as `ScanModel.Match` does. |
| Scanning.Scanner.AddToken | src/scanner.ts:174-177 | Appends the token `ScanModel.AddToken` describes and changes nothing else. |
| Scanning.Scanner.Identifier | src/scanner.ts:81-94 | Reads the word and appends its token, leaving the fields as `ScanModel.Identifier` says. |
| Scanning.Scanner.Number | src/scanner.ts:96-112 | Reads the digits and the fraction and appends the NUMBER token, as `ScanModel.Number` says. |
| Scanning.Scanner.String | src/scanner.ts:114-133 | Reads to the closing quote and appends the STRING token, or fails with "Unterminated string.", as `ScanModel.String` says. |
| Scanning.Scanner.ScanToken | src/scanner.ts:35-79 | Scans one lexeme, or fails with the same error, as `ScanModel.ScanToken` says. |
| Scanning.Scanner.ScanTokens | src/scanner.ts:24-33 | Returns the token list ending with EOF, or the first failure, as `ScanModel.ScanTokens` says. |
| ParseModel.Advance | src/compiler.ts:376-380 | `advance` stays on a token, moves by exactly one, and stays put exactly at EOF. |
| ParseModel.Match | src/compiler.ts:364-374 | `match` succeeds exactly when the current kind is listed, and then consumes that one token only. |
| ParseModel.Consume | src/compiler.ts:26-31 | `consume` succeeds exactly when the current token has the kind, and then returns it and moves by one. Otherwise it fails with its message at the current token. |
| ParseModel.CompileFrom | src/compiler.ts:33-39 | The compiled text extends the text emitted so far. |
| ParseModel.Global | src/compiler.ts:41-51 | Every successful declaration consumes at least one token and stays on a token. |
| ParseModel.FunctionDeclaration | src/compiler.ts:53-66 | A function declaration consumes at least one token and stays on a token. |
| ParseModel.Signature | src/compiler.ts:54-62 | The name and parameters consume at least one token. |
| ParseModel.ParametersFrom | src/compiler.ts:57-61 | The parameter loop consumes tokens and yields at least one more name. |
| ParseModel.ConstDeclaration | src/compiler.ts:68-75 | A constant declaration consumes at least one token. |
| ParseModel.ConstValue | src/compiler.ts:71-74 | The literal and its NEWLINE consume at least one token. |
| ParseModel.Defined | src/compiler.ts:85-95 | The elements are all defined exactly when the result is some list, which then holds their values in order. |
| ParseModel.Literal | src/compiler.ts:77-99 | A literal consumes at least one token. |
| ParseModel.ListLiteral | src/compiler.ts:85-95 | A list literal stays on a token. |
| ParseModel.LiteralsFrom | src/compiler.ts:87-93 | The list loop only appends elements. |
| ParseModel.Block | src/compiler.ts:101-108 | A block consumes at least its `}`. |
| ParseModel.BlockFrom | src/compiler.ts:103-107 | The block loop only appends text and consumes at least one token. |
| ParseModel.Statement | src/compiler.ts:110-126 | Every successful statement consumes at least one token and stays on a token. |
| ParseModel.Declaration | src/compiler.ts:128-134 | A `let` consumes at least one token. |
| ParseModel.Foreach | src/compiler.ts:136-143 | A `foreach` consumes at least one token. |
| ParseModel.ForeachBody | src/compiler.ts:140-142 | The body of a `foreach` consumes at least one token. |
| ParseModel.If | src/compiler.ts:145-159 | An `if` consumes at least one token. |
| ParseModel.IfBranches | src/compiler.ts:149-158 | The branches of an `if` consume at least one token. |
| ParseModel.Return | src/compiler.ts:161-168 | A `return` never moves back and stays on a token. |
| ParseModel.While | src/compiler.ts:170-176 | A `while` consumes at least one token. |
| ParseModel.ExpressionStatement | src/compiler.ts:178-182 | An expression statement consumes at least one token. |
| ParseModel.Expression | src/compiler.ts:184-186 | An expression consumes at least one token and stays on a token. |
| ParseModel.Assignment | src/compiler.ts:188-200 | An assignment-level expression consumes at least one token. |
| ParseModel.Operand | src/compiler.ts:202-278 | The operand of a binary level consumes at least one token. |
| ParseModel.Binary | src/compiler.ts:202-278 | Each binary level consumes at least one token. |
| ParseModel.BinaryFrom | src/compiler.ts:204-207 | The loop of a binary level never moves back. |
| ParseModel.Unary | src/compiler.ts:280-291 | `unary` consumes at least one token. |
| ParseModel.Call | src/compiler.ts:293-305 | `call` consumes at least one token. |
| ParseModel.CallFrom | src/compiler.ts:295-303 | The loop of `call` never moves back. |
| ParseModel.FinishCall | src/compiler.ts:307-316 | `finishCall` consumes at least its `)`. |
| ParseModel.FinishIndex | src/compiler.ts:318-322 | `finishIndex` consumes at least its `]`. |
| ParseModel.ExpressionsFrom | src/compiler.ts:309-313 | The comma-separated loop consumes tokens and yields at least one more expression. |
| ParseProperties.ValueTokenInlined | src/compiler.ts:329-330 | A NUMBER or STRING token is written as its literal's text. One without a value, as the words `number` and `string` scan, fails on that token. |
| ParseModel.Primary | src/compiler.ts:324-354 | `primary` consumes at least one token. |
| ParseModel.ListDisplay | src/compiler.ts:342-350 | A list display consumes at least its `]`. |
| ParseProperties.AdvanceStopsAtEof | src/compiler.ts:376-384 | `advance` moves by one exactly off a non-EOF token and never off EOF, so the cursor never passes the first EOF. |
| ParseProperties.ConsumeKeepsCursor | src/compiler.ts:26-31 | `consume` never consumes EOF, so the cursor stays on a token. |
| ParseProperties.GlobalNewline | src/compiler.ts:46-47 | A NEWLINE at the top level emits one newline and declares nothing. |
| ParseProperties.GlobalRejects | src/compiler.ts:48-49 | Any other token than `function`, `const` or a NEWLINE fails with "Expected function or const declaration" glued to its lexeme. |
| ParseProperties.GlobalFunction | src/compiler.ts:42-43 | A global that starts with `function` is that function declaration, and its constants are unchanged. |
| ParseProperties.GlobalConst | src/compiler.ts:44-45 | A global that starts with `const` is that constant declaration. |
| ParseProperties.ConstSets | src/compiler.ts:68-75 | A `const` emits nothing. It sets, or overwrites, its name to the literal after `=`, followed by a NEWLINE. Every other constant keeps its value. |
| ParseProperties.GlobalKeepsConstants | src/compiler.ts:41-51 | No declaration removes a constant, and only `const` changes the constants. |
| ParseProperties.DefinedSomes | src/compiler.ts:85-95 | A list of defined elements is defined, with the same values. |
| ParseProperties.LiteralOfToken | src/compiler.ts:77-84 | A number, string, `true` or `false` token is a one-token literal with its value. |
| ParseProperties.LiteralsInOrder | src/compiler.ts:87-93 | The literals of a comma-separated list ended by `]` are read in the order they are written, up to and including the `]`. |
| ParseProperties.ListLiteralInOrder | src/compiler.ts:85-95 | A non-empty, comma-separated list of literal tokens after `[` is the LIST of their values, in order, and its `]` is consumed. |
| ParseProperties.EmptyListUnconsumed | src/compiler.ts:85-95 | `[]` is an empty list whose `]` is left unconsumed. |
| ParseProperties.EmptyListConstFails | src/compiler.ts:68-75 | So `const name = []` fails with "Expected newline after const value" at the `]`. |
| ParseProperties.TrailingCommaConstFails | src/compiler.ts:68-95 | A trailing comma, as in `const name = [1,]`, fails the same way at the `]`. |
| ParseProperties.OperatorLevel | src/compiler.ts:202-278 | Each operator belongs to exactly one binary level. |
| ParseProperties.Lift | src/compiler.ts:202-278 | An operand followed by no operator of its level or of any level above it, up to `high`, is the whole expression of level `high`. |
| ParseProperties.ExpressionOfPrimary | src/compiler.ts:184-354 | A primary followed by a token that continues no expression is a whole expression, with the same text. |
| ParseProperties.LeftAssociative | src/compiler.ts:202-278 | `a op b op d` at one level is the text of `(a op b) op d`, each operator written as its level writes it. |
| ParseProperties.AndWrittenOr | src/compiler.ts:211-218 | `a and b` is written `a or b`. |
| ParseProperties.UnaryPrefix | src/compiler.ts:280-291 | `!` is written `not ` and `-` is written `-`, before the operand's text. |
| ParseProperties.NameOperand | src/compiler.ts:330-337 | An undeclared name followed by nothing that continues its level is an operand on its own, written as it is. |
| ParseProperties.NotEqualText | src/compiler.ts:220-232 | Chaining `!=` puts `not` before the whole left side each time. |
| ParseProperties.NotEqualChain | src/compiler.ts:220-232 | `a != b != d` is written `not not a = b = d`, with no parentheses. |
| ParseProperties.EmptyArguments | src/compiler.ts:307-316 | `f()` is written `f ` with a trailing space. |
| ParseProperties.TwoArguments | src/compiler.ts:307-316 | `f(a, b)` is written `f a b`. |
| ParseProperties.IndexChain | src/compiler.ts:293-322 | `x[i][j]` is written `item j item i x`: indexes apply from left to right. |
| ParseProperties.ConstantsSubstituted | src/compiler.ts:330-337 | A declared name is replaced by its constant's text, and a declared but undefined one fails. An undeclared name is written as it is. |
| ParseProperties.GroupingKept | src/compiler.ts:338-341 | A parenthesised expression keeps its parentheses. |
| ParseProperties.ExpressionOfLiteral | src/compiler.ts:331-333 | A literal token followed by a token that continues no expression is an expression whose text is its value's text. |
| ParseProperties.ExpressionsInOrder | src/compiler.ts:345-347 | The comma-separated expression loop reads expressions of any length in order, each ending where the next comma is, up to the token after the last. |
| ParseProperties.ArgumentsInOrder | src/compiler.ts:307-316 | A call whose arguments are such expressions, closed by `)`, is written as the callee, a space, and the arguments in order separated by spaces. |
| ParseProperties.DisplayInOrder | src/compiler.ts:342-350 | A list display whose elements are such expressions, closed by `]`, is written `( list `, the elements in order, then ` )`. |
| ParseProperties.ListText | src/compiler.ts:349 | A list display of the element texts of a LIST value is that value's text. |
| ParseProperties.ListElementsInOrder | src/compiler.ts:342-350 | The elements of an inline list of literals are the texts of their values, in order. |
| ParseProperties.InlineListAsConstant | src/compiler.ts:342-350 | An inline list of literals is written exactly as a constant holding the same list is inlined. |
| ParseProperties.UnaryRejects | src/compiler.ts:352 | At a token no expression starts with, `unary` fails with "Expect expression." at that token. |
| ParseProperties.BinaryRejects | src/compiler.ts:202-278 | Every binary level fails in the same way at such a token. |
| ParseProperties.NotAnExpression | src/compiler.ts:184-186 | So an expression cannot start with any other token. |
| ParseProperties.BraceBlockFails | src/compiler.ts:101-108 | A block whose first token is `{` fails with "Expect expression." at it. |
| ParseProperties.IfBraceFails | src/compiler.ts:145-149 | `if (c) {` fails at the `{`, because the then-block starts right after `)`. |
| ParseProperties.WhileBraceFails | src/compiler.ts:170-174 | `while (c) {` fails at the `{` in the same way. |
| ParseProperties.AssignmentRejected | src/compiler.ts:188-200 | An accepted expression is an `or` expression not followed by `=`. Where `=` follows, the whole fails: with the right side's error if it has one, otherwise with "Invalid assignment target" at the `=`. |
| ParseProperties.BareReturn | src/compiler.ts:161-164 | `return` directly followed by a NEWLINE is `stop\n`, and the NEWLINE is left in place. |
| ParseProperties.ReturnNeedsNewline | src/compiler.ts:165-166 | A returned value not followed by a NEWLINE fails with "Expected newline after return" at the next token. |
| ParseProperties.ReturnReports | src/compiler.ts:165-167 | A returned value followed by a NEWLINE is `report value\n`. |
| ParseProperties.TemplatesEndLine | src/compiler.ts:128-182 | The templates of `let` (with a space before the newline), `foreach`, `if`/`ifelse`, `while`, `report` and the expression statement each end with a newline. |
| ParseProperties.KeywordStatement | src/compiler.ts:110-126 | `foreach`, `if`, `return`, `while` and `let` each start their own statement. |
| ParseProperties.StatementEndsLine | src/compiler.ts:110-182 | The text of every statement ends with a newline. |
| ParseProperties.BlockLines | src/compiler.ts:101-108 | A block's text is a sequence of whole lines. |
| ParseProperties.FunctionLines | src/compiler.ts:53-66 | A function's text is made of whole lines. |
| ParseProperties.GlobalLines | src/compiler.ts:41-51 | A function's text ends with `end\n`, a constant emits nothing and a NEWLINE emits a newline: whole lines in every case. |
| ParseProperties.CompileLines | src/compiler.ts:33-39 | The concatenated output of `compile` is a sequence of whole lines. |
| ParseProperties.TranspileLines | src/compiler.ts:10-12 | The translation of any accepted source is a sequence of whole lines. |
| ParseProperties.FunctionHead | src/compiler.ts:63-65 | A function starts with `to-report ` exactly when its body contains `report `, otherwise with `to `, and it always ends with `end\n`. |
| ParseProperties.IfHead | src/compiler.ts:154-158 | An `if` is written as `ifelse ` exactly when the else-branch has text, otherwise as `if `. |
| Compiling.Compiler.constructor | src/compiler.ts:5-12 | A new compiler is on the first token, with no constants. |
| Compiling.Compiler.Next | src/compiler.ts:22-24 | `next` returns the current token and moves the cursor by one. |
| Compiling.Compiler.Advance | src/compiler.ts:376-380 | Moves the cursor as `ParseModel.Advance` does: never off EOF. |
| Compiling.Compiler.MatchType | src/compiler.ts:368-374 | Consumes the current token exactly when it has the kind. |
| Compiling.Compiler.Match | src/compiler.ts:364-366 | Consumes the current token exactly when its kind is among those listed. |
| Compiling.Compiler.Consume | src/compiler.ts:26-31 | Returns and consumes a token of the kind, or fails at the current token, as `ParseModel.Consume` says. |
| Compiling.Compiler.Compile | src/compiler.ts:33-39 | Returns the concatenated declarations up to EOF, or the first failure, as `ParseModel.CompileFrom` says. On success the cursor is on EOF. |
| Compiling.Compiler.Global | src/compiler.ts:41-51 | Returns the declaration's text and leaves the cursor and the constants, which only `const` changes, as `ParseModel.Global` says. |
| Compiling.Compiler.FunctionDeclaration | src/compiler.ts:53-66 | Returns the function's text, as `ParseModel.FunctionDeclaration` says. |
| Compiling.Compiler.Signature | src/compiler.ts:54-62 | Returns the function's name and parameters, as `ParseModel.Signature` says. |
| Compiling.Compiler.ConstDeclaration | src/compiler.ts:68-75 | Emits nothing and sets the constant, as `ParseModel.ConstDeclaration` says. |
| Compiling.Compiler.ConstValue | src/compiler.ts:71-74 | Reads the literal and the NEWLINE and sets the constant, as `ParseModel.ConstValue` says. |
| Compiling.Compiler.Literal | src/compiler.ts:77-99 | Returns the literal's value, as `ParseModel.Literal` says. |
| Compiling.Compiler.ListLiteral | src/compiler.ts:85-95 | Returns the list of the literals after `[`, as `ParseModel.ListLiteral` says. |
| Compiling.Compiler.Block | src/compiler.ts:101-108 | Returns the statements' text up to `}`, as `ParseModel.Block` says. |
| Compiling.Compiler.Statement | src/compiler.ts:110-126 | Returns the statement's text, as `ParseModel.Statement` says. |
| Compiling.Compiler.Declaration | src/compiler.ts:128-134 | Returns `let name value \n`, as `ParseModel.Declaration` says. |
| Compiling.Compiler.ForeachStatement | src/compiler.ts:136-143 | Returns the `foreach` text, as `ParseModel.Foreach` says. |
| Compiling.Compiler.ForeachBody | src/compiler.ts:140-142 | Reads `{` and the body, as `ParseModel.ForeachBody` says. |
| Compiling.Compiler.IfStatement | src/compiler.ts:145-159 | Returns the `if`/`ifelse` text, as `ParseModel.If` says. |
| Compiling.Compiler.IfBranches | src/compiler.ts:149-158 | Reads the then-block and the optional else-block, as `ParseModel.IfBranches` says. |
| Compiling.Compiler.ReturnStatement | src/compiler.ts:161-168 | Returns `stop\n` or `report value\n`, as `ParseModel.Return` says. |
| Compiling.Compiler.WhileStatement | src/compiler.ts:170-176 | Returns the `while` text, as `ParseModel.While` says. |
| Compiling.Compiler.ExpressionStatement | src/compiler.ts:178-182 | Returns the expression and a newline, as `ParseModel.ExpressionStatement` says. |
| Compiling.Compiler.Expression | src/compiler.ts:184-186 | Returns the expression's text, as `ParseModel.Expression` says. |
| Compiling.Compiler.Assignment | src/compiler.ts:188-200 | Returns the `or` expression, or rejects an assignment at its `=`, as `ParseModel.Assignment` says. |
| Compiling.Compiler.Binary | src/compiler.ts:202-278 | Folds the operands of one level from the left, as `ParseModel.Binary` says. |
| Compiling.Compiler.Operand | src/compiler.ts:202-278 | Parses the next level up, as `ParseModel.Operand` says. |
| Compiling.Compiler.Unary | src/compiler.ts:280-291 | Returns the prefixed operand or the call, as `ParseModel.Unary` says. |
| Compiling.Compiler.Call | src/compiler.ts:293-305 | Applies argument lists and indexes from left to right, as `ParseModel.Call` says. |
| Compiling.Compiler.FinishCall | src/compiler.ts:307-316 | Returns the callee and its arguments, as `ParseModel.FinishCall` says. |
| Compiling.Compiler.FinishIndex | src/compiler.ts:318-322 | Returns `item index callee`, as `ParseModel.FinishIndex` says. |
| Compiling.Compiler.Primary | src/compiler.ts:324-354 | Returns the primary's text, with constants inlined, as `ParseModel.Primary` says. |
| Compiling.Compiler.ListDisplay | src/compiler.ts:342-350 | Returns `( list e1 … en )`, as `ParseModel.ListDisplay` says. |
| Compiling.Transpile | src/compiler.ts:10-12 | Scanning and then compiling the source gives exactly `ParseModel.Transpile(source)`: a fresh scanner, then a compiler from the first token with no constants. |

## Left out

- The command line, file access, clipboard and process exit (`src/lsc.ts`, `src/index.ts`) and the coloured console output (`src/reporter.ts`) are I/O and are not part of this model.
- `src/compileerror.ts` and `src/errordisplay.ts` render an error with file paths and ANSI colours. A failure here is a value carrying the message, or its parts, and the offending token. The scanner's `file` parameter, which only reaches that rendering, is dropped.
- `src/ast.ts` declares interfaces that the compiler never builds, so no tree is modelled.
- Values.NumberText: a number keeps its decimal lexeme. Its printed text is a simple canonical-decimal stand-in for JavaScript's IEEE `Number(…)` and `toString`, and nothing is proved about it: rounding and exponent forms are not modelled.
- A literal that is `undefined` (from the words `number` and `string`, which scan as NUMBER and STRING without a value) is `None`. So is a list containing one, because the only use of a constant is `toString`, which throws for both. The error is modelled as `UndefinedLiteral`. It also carries the token being inlined, which the source's `TypeError` does not; `Diagnostics.Message` gives the run-time text of that `TypeError`.
- Compiling.Compiler.Binary stands for the six methods `or`, `and`, `equality`, `comparison`, `addition` and `multiplication`, which differ only in their operators and in the operand level. It takes that level as a parameter.
- Compiling.Compiler.ForeachBody, Compiling.Compiler.IfBranches and Compiling.Compiler.ConstValue are the second halves of `foreachStatement`, `ifStatement` and `constDeclaration`, split off to keep each proof small. Each still does what the source does, in the same order.
- Compiling.Compiler.MatchType is used by the productions wherever the source calls `match` with a single kind. Both consume exactly one token of that kind, as the contract of Compiling.Compiler.Match states.
- Compiling.Compiler.constructor takes the scanner's tokens. The scan in the source's constructor is done by Compiling.Transpile, which also stands for `compile` being called on a fresh compiler.
- Source text is a sequence of Unicode scalar values, where JavaScript strings are sequences of UTF-16 code units. A character outside the Basic Multilingual Plane is one position and one column here but two in the source, so columns after it differ, and an illegal one is reported as the whole character rather than its first surrogate half.
- The ASCII case mapping of Strings.Upper and Strings.Lower replaces JavaScript's Unicode case mapping. Both agree on the word lexemes the scanner upper-cases.
- ParseProperties.ListLiteralInOrder: covers lists whose elements are single literal tokens. Nested list literals go through the same recursion of `literal`, but no lemma states their values.
- The assignment text `set name value` (src/compiler.ts:194) cannot be produced: the tested token is always the `=`. The model keeps only the error path the code can reach.
