# Tinyparse front end in Dafny

This project models the front end of Tinyparse, a small statically typed
expression language written in Java. The front end turns a character stream
into a type-checked syntax tree in three coupled stages:

- **Lexer.** `CharBuffer`, `Lexer`, `LexerTable` and the symbol registry
  `SymbolTable` turn characters into tokens. Lexing is maximal munch:
  - words are looked up as keywords, type names or variables;
  - numbers may have a defaulted integer or fraction part and an optional
    exponent;
  - operators grow one character at a time while the longer text is still
    an operator entry;
  - a partial match of a fixed string is put back.
- **Expression parser.** `BaseParser`, `ExprParser`, the operator table
  `Operators/OperatorTable` and `TypeTable` form a precedence-climbing
  parser. It handles prefix operators, parenthesised groups and the infix
  loop of `recurParseInfixExpr`, and then runs the post-order type analysis
  against an operator compatibility table.
- **Statements and scopes.** `DeclParser`, `ScopeParser`, `BlockParser`,
  `Block`, `Node` and `ScopeNode` parse statements and blocks:
  - `var`/`let` declarations with an optional type and initializer;
  - expression statements;
  - braces that open a new scope chained to the enclosing one.

  The name a declaration adds is registered before its initializer is
  parsed, and its type is patched from the initializer when none was
  written.

The older registries `Reserved/ReservedTable`, `Reserved/OperatorTable` and
`Keywords/KeywordTable` are modelled alongside, as the source still carries
them.

**How the Java is modelled:**

- Pure decisions are Dafny functions: the lexical grammar in `Lexemes` and
  the parsing grammars in `ExprGrammar`, `DeclGrammar` and `ScopeGrammar`.
- Code that updates state keeps its imperative form as Dafny classes:
  - the character buffer, the lexer, the tables and the nodes;
  - the four parser classes, whose methods consume tokens from a shared
    cursor.
- Every imperative method is proved to agree with the grammar function of
  the same name. The properties of the front end are lemmas about those
  functions.

**The token stream.** The parsers call `lookahead`, `consume` and
`getCurrLine` on the lexer. These appear in no revision of `Lexer` that
this model covers, so the parsers read a finished token sequence through a
cursor. Past the end that cursor yields an `EOF` token carrying the line
where input ended.

**Two revisions, one token type.** The repository mixes two revisions of
the token-type enumeration:

- the lexer and `SymbolTable` use `VAR` and `MUTABLE_ID_DECL`;
- the parsers expect `ID`, `VAR_DECL` and `TYPE_ID`.

`Tokens.TokenType` is the union of both, and each half of the model is
stated with the constants its own code uses.

**Scoping: lookup falls through to the enclosing block.** Each `Block`
hands its parent's table to the `SymbolTable` it creates
(src/Parser/Block.java:9-12). The only `SymbolTable` in this model,
src/Symbols/SymbolTable.java, has no parent and no `getSymbol`, so how the
parsers' `getSymbol` searches is not written anywhere the model can see.
The model makes a choice and states it:

- `ExprParser.parseId` must resolve a name declared in an enclosing block
  (src/Parser/ExprParser.java:128), so a lookup that misses in a block's
  own table falls through to its parent's;
- as a consequence, the redeclaration check of `DeclParser.parseLhs`
  (src/Parser/DeclParser.java:71) sees outer names too, and an inner
  redeclaration of an outer name is rejected
  (`DeclGrammar.RedeclarationRejected`).

`Scopes.Shadowing` shows what registering in an inner table would do, but no
parse reaches that registration.

## Model

| member | source | states |
|---|---|---|
| Tokens.TypedToken | src/Tokens/Token.java:14-16 | the two-argument constructor keeps value and type and puts the token on line 1 |
| Tokens.UntypedToken | src/Tokens/Token.java:18-20 | the one-argument constructor is the typed one with type UNKNOWN |
| Tokens.SetTokenType | src/Tokens/Token.java:34-36 | after `setTokenType` the token has the new type, with value and line unchanged |
| Tokens.EqualsIsEquivalence | src/Tokens/Token.java:44-52 | token `equals` is reflexive, symmetric and transitive, and holds exactly when the tokens agree on everything except the line |
| Tokens.TypedTokenMatchesAnyLine | src/Tokens/Token.java:44-52 | a token built without a line equals one with the same value and type on any line, though the two differ as values off line 1 |
| Tokens.SetTokenTypeEquals | src/Tokens/Token.java:34-52 | re-setting a token's own type yields an equal token; any other type yields one that is not equal |
| Tokens.SignatureOfName | src/Lexer/LexerTable.java:27-52 | every token type's `name()` is non-empty, and its length and first and last letters lead back to that type |
| Tokens.SignatureOfNameA | src/Lexer/LexerTable.java:27-52 | helper of SignatureOfName, which splits the case analysis four ways: the same, for the constants MUTABLE_ID_DECL to TYPE_ID |
| Tokens.SignatureOfNameB | src/Lexer/LexerTable.java:27-52 | helper of SignatureOfName, which splits the case analysis four ways: the same, for the constants INT_LITERAL to MOD |
| Tokens.SignatureOfNameC | src/Lexer/LexerTable.java:27-52 | helper of SignatureOfName, which splits the case analysis four ways: the same, for the constants POW to DOT |
| Tokens.SignatureOfNameD | src/Lexer/LexerTable.java:27-52 | helper of SignatureOfName, which splits the case analysis four ways: the same, for the constants COLON to UNKNOWN |
| Tokens.NameInjective | src/Lexer/LexerTable.java:27-52 | two token types have the same `name()` exactly when they are the same type, so lookups by name cannot mix entries |
| Exceptions.Rendered | src/Exceptions/SyntaxError.java:4-6 | an error's text is its message, then " on line ", then text that reads back as the line: canonical decimal digits, after a '-' when the line is negative |
| Exceptions.NatToString | src/Exceptions/SyntaxError.java:5 | a line number is rendered as a non-empty string of decimal digits |
| Exceptions.DecimalValue | src/Exceptions/SyntaxError.java:5 | the value of a digit string read left to right; digits with a non-zero first digit are worth more than 0 |
| Exceptions.DecimalValueOfNatToString | src/Exceptions/SyntaxError.java:5 | reading back the digits written for a number gives that number |
| Exceptions.NatToStringCanonical | src/Exceptions/SyntaxError.java:5 | the digits written for a number have no leading zero, except the single digit of 0 |
| Exceptions.IntToStringWrites | src/Exceptions/SyntaxError.java:5 | an int's text is the canonical digits of its magnitude, after a '-' exactly when it is negative, and reads back as the int |
| CharBuffers.CharOf | src/Lexer/Lexer.java:145-146 | the `(char)` cast of a unit is the character with that code |
| CharBuffers.UnitsOf | src/Lexer/CharBuffer.java:48-58 | a string becomes the same number of units, each one the code of its character |
| CharBuffers.TextOf | src/Lexer/Lexer.java:156-182 | the text built from units has one character per unit |
| CharBuffers.TextOfUnitsOf | src/Lexer/CharBuffer.java:48-58 | turning a string into units and back gives the same string |
| CharBuffers.Head | src/Lexer/CharBuffer.java:22-29 | the next code is EOS exactly when the stream is exhausted |
| CharBuffers.Tail | src/Lexer/CharBuffer.java:37-41 | one read removes exactly the first unit, and an exhausted stream stays exhausted |
| CharBuffers.PushKeepsConsistent | src/Lexer/CharBuffer.java:48-58 | pushing units in front of the buffer keeps it consistent with the stream those units were pushed onto |
| CharBuffers.CharBuffer.constructor | src/Lexer/CharBuffer.java:11-13 | a new buffer is empty, and its stream is the whole input |
| CharBuffers.CharBuffer.ReaderRead | src/Lexer/CharBuffer.java:24 | the reader delivers the next input unit, or EOS once the input is exhausted, and counts the call |
| CharBuffers.CharBuffer.Peek | src/Lexer/CharBuffer.java:22-29 | `peek` returns the stream's next code without consuming it, and calls the reader exactly once, only when the buffer is empty |
| CharBuffers.CharBuffer.Read | src/Lexer/CharBuffer.java:37-41 | `read` returns the code `peek` would return and leaves the stream one unit shorter |
| CharBuffers.CharBuffer.PutBack | src/Lexer/CharBuffer.java:48-58 | null and "" are rejected with the buffer unchanged; any other string's units are read next, in order, and the reader is not touched |
| Lexemes.At | src/Lexer/CharBuffer.java:22-29 | the code at a position is EOS exactly past the end of the stream |
| Lexemes.SpaceEnd | src/Lexer/Lexer.java:49-57 | the end of the leading spaces lies between the start and the end of the stream |
| Lexemes.SpaceEndSkipsSpaces | src/Lexer/Lexer.java:49-57 | space skipping stops at the first non-space, and every skipped code is a space |
| Lexemes.NewLines | src/Lexer/Lexer.java:49-57 | the line feeds counted in a stretch are at most its length |
| Lexemes.ScanWordFrom | src/Lexer/Lexer.java:156-182 | where the word loop ends lies between its start and the end of the stream |
| Lexemes.ScanWordFromStops | src/Lexer/Lexer.java:156-182 | the word loop consumes only letters, digits and '_'; it ends before a separator or a special character and fails on any other character |
| Lexemes.ScanWord | src/Lexer/Lexer.java:156-182 | a word consumes at least one unit, is the text of what it consumed, and leaves its type UNKNOWN; its only error is an invalid character |
| Lexemes.WordLexeme | src/Lexer/Lexer.java:156-182 | there is a word exactly when the stream starts with a letter or '_'; the word is followed by a separator or a special character |
| Lexemes.DigitsEnd | src/Lexer/Lexer.java:265-279 | a digit run ends between its start and the end of the stream |
| Lexemes.DigitsEndStopsAtNonDigit | src/Lexer/Lexer.java:265-279 | a digit run holds only digits and stops at the first non-digit |
| Lexemes.ScanDigits | src/Lexer/Lexer.java:265-279 | a digit sequence never fails; when present it is an INT_LITERAL whose text is what it consumed |
| Lexemes.ScanStr | src/Lexer/Lexer.java:231-256 | a fixed string matches exactly when it is a prefix of the stream, and consumes exactly its own length; otherwise nothing is consumed |
| Lexemes.StrMismatch | src/Lexer/Lexer.java:231-256 | a mismatch before the end of the string, or running out of stream, means the string is not a prefix |
| Lexemes.ScanNumber | src/Lexer/Lexer.java:287-322 | a number never fails and consumes at most the whole stream |
| Lexemes.NumberShape | src/Lexer/Lexer.java:287-322 | a number needs a leading digit or '.'; it is an INT_LITERAL exactly when its text has no '.', and then its text is the leading digits |
| Lexemes.ScanSign | src/Lexer/Lexer.java:357-366 | the exponent sign is one unit when present, and its absence is no error |
| Lexemes.ScanScientific | src/Lexer/Lexer.java:331-375 | there is no number exactly when there is no mantissa; the only failure is an invalid numeric expression |
| Lexemes.OperatorEnd | src/Lexer/Lexer.java:191-220 | the munch loop stops within the stream, and any text it consumed has an operator entry |
| Lexemes.OperatorEndMaximal | src/Lexer/Lexer.java:191-220 | the munch loop stops only where one more character would not have an operator entry |
| Lexemes.ScanOperator | src/Lexer/Lexer.java:191-220 | an operator lexeme is the text it consumed; that text has an operator entry whose token type is the lexeme's |
| Lexemes.OperatorMunch | src/Lexer/Lexer.java:191-220 | an operator is the longest prefix reachable one character at a time; there is none when the first character alone has no entry |
| Lexemes.WordType | src/Lexer/Lexer.java:117-136 | a word with no table entry is a VAR; otherwise it takes its entry's token type |
| Lexemes.TokenAt | src/Lexer/Lexer.java:113-147 | after the spaces: the end of the stream gives no token; a token consumes input and is on the current line; errors carry that line |
| Lexemes.NextToken | src/Lexer/Lexer.java:106-147 | a token lies after the skipped spaces and is on the line reached past them; there is no token exactly when only spaces remain |
| Lexemes.Tokenize | src/Lexer/Lexer.java:106-147 | repeated `getNextToken` numbers lines monotonically: no token is on a line before the starting one |
| Lexemes.AfterSpaces | src/Lexer/Lexer.java:49-57 | after the spaces are skipped, the stream starts with no space and holds no line feed in front |
| Lexemes.AfterSpacesTwice | src/Lexer/Lexer.java:49-57 | skipping spaces is idempotent and a second skip counts no lines |
| Lexemes.TextOfSnoc | src/Lexer/Lexer.java:168-171 | taking one more unit appends exactly its character to the lexeme text |
| Lexemes.NewLinesStep | src/Lexer/Lexer.java:52-55 | the line count grows by one exactly at a line feed |
| Lexemes.SpaceEndShift | src/Lexer/Lexer.java:49-57 | dropping the first unit moves the end of the spaces back by one |
| Lexemes.NewLinesShift | src/Lexer/Lexer.java:49-57 | dropping the first unit drops its line feed, if it is one, from the count |
| Lexemes.SpacesShift | src/Lexer/Lexer.java:49-57 | with a leading space other than a line feed, the spaces end at the same place and on the same line as without it |
| Lexemes.NextTokenSkipsSpace | src/Lexer/Lexer.java:106-147 | such a space changes nothing about the step but its end, one unit further |
| Lexemes.SpaceSkipped | src/Lexer/Lexer.java:106-147 | such a space changes nothing about the tokens of the stream |
| Lexers.OperatorScanned | src/Lexer/Lexer.java:191-220 | where the munch loop stops, its text and saved entry are the operator lexeme, and no text means no operator |
| Lexers.PutBackRestores | src/Lexer/Lexer.java:247-252 | putting back the units a partial match read restores the stream exactly |
| Lexers.NumberFromParts | src/Lexer/Lexer.java:287-322 | the integer digits, '.' and fraction reads compose to the number lexeme; it is absent only when the digits and the '.' both are; missing parts read "0" |
| Lexers.NumberConsumed | src/Lexer/Lexer.java:287-322 | the three reads consume exactly the number lexeme |
| Lexers.FractionConsumed | src/Lexer/Lexer.java:311-318 | after the digits and a '.', the fraction read ends the lexeme |
| Lexers.NoExponent | src/Lexer/Lexer.java:346-353 | without 'e', the mantissa is the whole number when what follows may end a number; otherwise the number is invalid |
| Lexers.SignFromParts | src/Lexer/Lexer.java:357-366 | '+' is tried before '-', and together they are the sign lexeme |
| Lexers.MissingExponent | src/Lexer/Lexer.java:369-372 | after 'e' and an optional sign, a missing exponent is an invalid numeric expression |
| Lexers.WithExponent | src/Lexer/Lexer.java:331-375 | a mantissa, 'e', the optional sign and the exponent form a FLOAT_LITERAL whose text joins theirs |
| Lexers.DropDrop | src/Lexer/Lexer.java:287-322 | dropping i units and then j more drops i + j |
| Lexers.WordAt | src/Lexer/Lexer.java:117-136 | a word, typed by the table, or the word routine's error, is the lexer's step |
| Lexers.NumberAt | src/Lexer/Lexer.java:137-140 | without a word, the number routine's token or error is the step |
| Lexers.OperatorAt | src/Lexer/Lexer.java:141-146 | without a word or a number, an operator is the step; with none, the error is invalid syntax on the current line |
| Lexers.NextAfterSpaces | src/Lexer/Lexer.java:106-147 | the step taken after the spaces, shifted past them, is the step on the whole stream |
| Lexers.TokenDeque.constructor | src/Lexer/Lexer.java:15 | the token buffer starts empty |
| Lexers.TokenDeque.IsEmpty | src/Lexer/Lexer.java:108 | `isEmpty` holds exactly when no token is waiting |
| Lexers.TokenDeque.RemoveFirst | src/Lexer/Lexer.java:109 | `removeFirst` returns the oldest waiting token and drops it |
| Lexers.Lexer.constructor | src/Lexer/Lexer.java:14-23 | a new lexer reads the whole input from a fresh buffer, with no waiting tokens, on line 1 |
| Lexers.Lexer.GetCurrentLine | src/Lexer/Lexer.java:30-32 | returns the current line |
| Lexers.Lexer.IsEOS | src/Lexer/Lexer.java:40-42 | true exactly when no unit is left; nothing is consumed |
| Lexers.Lexer.SkipSpaces | src/Lexer/Lexer.java:49-57 | consumes exactly the leading spaces and advances the line by the line feeds among them |
| Lexers.Lexer.GetAlnumUnderscoreToken | src/Lexer/Lexer.java:156-182 | the loop returns ScanWord's token and consumes exactly its lexeme, or fails with its error |
| Lexers.Lexer.GetOperatorToken | src/Lexer/Lexer.java:191-220 | the munch loop peeks one character ahead and returns ScanOperator's token, consuming exactly ScanOperator's lexeme |
| Lexers.Lexer.GetStrToken | src/Lexer/Lexer.java:231-256 | returns ScanStr's token; after a partial match the stream is restored |
| Lexers.Lexer.GetDigitSeqToken | src/Lexer/Lexer.java:265-279 | returns ScanDigits' token and consumes exactly its digits |
| Lexers.Lexer.GetNumberToken | src/Lexer/Lexer.java:287-322 | returns ScanNumber's token, with missing parts read as "0", and consumes exactly its lexeme |
| Lexers.Lexer.GetScientificNumberToken | src/Lexer/Lexer.java:331-375 | skips spaces (counting lines), then returns ScanScientific's token or error, consuming exactly its lexeme |
| Lexers.Lexer.GetNextToken | src/Lexer/Lexer.java:106-147 | a waiting token comes first; otherwise it yields NextToken's token, end or error, consumes exactly the lexeme and moves to the line after the spaces |
| Lexers.Lexer.TokenAfterSpaces | src/Lexer/Lexer.java:113-146 | once the spaces are gone, it yields TokenAt's step on the current line |
| Lexers.Lexer.TypeWord | src/Lexer/Lexer.java:120-135 | a word keeps its text and line and takes WordType's token type |
| LexerExamples.NotSpace | src/Lexer/Lexer.java:65-67 | printable ASCII and the codes up to U+1680 are not spaces |
| LexerExamples.NoLeadingSpace | src/Lexer/Lexer.java:106-147 | with no leading space, the step is taken at the start on the same line |
| LexerExamples.ContentsOneUnit | src/Lexer/LexerTable.java:34-52 | each of + - * / ( ) = has an operator entry of its own token type, and no operator entry of two characters starts with one of them |
| LexerExamples.OneUnitOperator | src/Lexer/Lexer.java:191-220 | in such a table a one-unit operator character is an operator lexeme of one unit, whatever follows it |
| LexerExamples.StarOperator | src/Lexer/Lexer.java:191-220 | '*' munches as MULT whatever follows it, including the null "**" and the "*." of the first stream |
| LexerExamples.OperatorToken | src/Lexer/Lexer.java:113-147 | a stream starting with a one-unit operator character takes that operator as its step, on the current line |
| LexerExamples.StarFirst | src/Lexer/LexerTest.java:47 | a stream starting "*" lexes MULT first, on line 1 |
| LexerExamples.TokenizeEmit | src/Lexer/Lexer.java:106-147 | tokenizing gives the first step's token followed by the rest's tokens |
| LexerExamples.PowerIsTwoMults | src/Lexer/LexerTable.java:39 | "**" has a null entry, so it lexes as two MULT tokens |
| LexerExamples.WordRun | src/Lexer/Lexer.java:156-182 | over letters, digits and '_' up to a separator or a special character, the word loop ends exactly there |
| LexerExamples.WordToken | src/Lexer/Lexer.java:117-136 | such a word is the step: its text, typed by the table, on the current line |
| LexerExamples.TrueWord | src/Lexer/Lexer.java:156-182 | "true;" scans the word "true" |
| LexerExamples.TrueIsVar | src/Lexer/LexerTable.java:29 | "true" has a null entry, so it lexes as a VAR |
| LexerExamples.VarWord | src/Lexer/LexerTest.java:60-62 | on a fragment of that input, "var" and a blank, the word scanned is "var" |
| LexerExamples.VarIsKeyword | src/Lexer/LexerTest.java:60-62 | on a fragment of that input, "var ", the step is the MUTABLE_ID_DECL token "var" |
| LexerExamples.DigitRun | src/Lexer/Lexer.java:265-279 | a run of digits ended by a non-digit is where the digit loop stops |
| LexerExamples.NumberToken | src/Lexer/Lexer.java:137-140 | a stream starting with a digit or '.' whose number scans takes that number as its step |
| LexerExamples.LoneDot | src/Lexer/LexerTest.java:48 | a '.' without digits around it is "0.0" |
| LexerExamples.FinalDot | src/Lexer/LexerTest.java:48 | a '.' ending the stream is "0.0" |
| LexerExamples.DotEDot | src/Lexer/LexerTest.java:43 | ".e." is the FLOAT_LITERAL "0.0e0.0" |
| LexerExamples.TrailingDot | src/Lexer/LexerTest.java:36 | "25." before ')' is "25.0" |
| LexerExamples.NumberThenLetter | src/Lexer/Lexer.java:346-352 | "1a" is an invalid numeric expression |
| LexerExamples.SignedExponent | src/Lexer/LexerTest.java:68 | ".e+.5" is "0.0e+0.5" |
| LexerExamples.IntegerWithExponent | src/Lexer/LexerTest.java:80 | "71e3" is a FLOAT_LITERAL |
| LexerExamples.TwoDigitInteger | src/Lexer/LexerTest.java:31-82 | two digits before '+' or ')' ("52" and "21" in the streams) are the INT_LITERAL of those digits |
| LexerExamples.FullDecimal | src/Lexer/LexerTest.java:40 | "32.4" before '-' is the FLOAT_LITERAL "32.4" |
| LexerExamples.LeadingDot | src/Lexer/LexerTest.java:46 | ".9" before '*' is "0.9" |
| LexerExamples.TrailingDotBeforeOperator | src/Lexer/LexerTest.java:78 | "67." before '+' is "67.0" |
| LexerExamples.NegativeExponent | src/Lexer/LexerTest.java:76 | "2.e-1" is "2.0e-1" |
| LexerExamples.BlankStep | src/Lexer/Lexer.java:49-57 | a blank inside a stream on line 1 is skipped: from it the stream lexes as from the next unit |
| LexerExamples.Emitted | src/Lexer/Lexer.java:106-147 | a token taken at a non-space on line 1, followed by the rest's tokens, is the stream's tokens from there |
| LexerExamples.StreamEnd | src/Lexer/Lexer.java:113-115 | at the end of the stream nothing more is lexed |
| LexerExamples.ContentsWords | src/Lexer/LexerTable.java:27-30 | "var" is the mutable-declaration keyword, and "a" and "b" have no entry |
| LexerExamples.ContentsServesStreams | src/Lexer/LexerTable.java:27-52 | the lexer's table has everything the two expected streams rely on |
| LexerExamples.LetterToken | src/Lexer/Lexer.java:117-136 | a one-letter name with no entry, ended by a blank or a one-unit operator, is a VAR |
| LexerExamples.VarStep | src/Lexer/LexerTest.java:60-62 | "var" and a blank inside a stream lex as MUTABLE_ID_DECL followed by the rest's tokens |
| LexerExamples.FirstStreamWith | src/Lexer/LexerTest.java:28-56 | in any table with the one-unit operators, the first input lexes as exactly the 18 expected tokens |
| LexerExamples.FirstStream | src/Lexer/LexerTest.java:28-56 | the lexer turns "52+-(-25.)-(32.4-+.e.)/.9*." into exactly the 18 expected tokens, all on line 1 |
| LexerExamples.SecondStreamWith | src/Lexer/LexerTest.java:58-93 | in any table with the one-unit operators, "var", and no entry for "a" or "b", the second input lexes as exactly the 24 expected tokens |
| LexerExamples.SecondStream | src/Lexer/LexerTest.java:58-93 | the lexer turns the second input, with its spaces and tabs, into exactly the 24 expected tokens, all on line 1 |
| LexerTables.Lookup | src/Lexer/LexerTable.java:65-67 | `get` yields the value stored under exactly the key, and null for a key never stored |
| LexerTables.LexerTable.Init | src/Lexer/LexerTable.java:23-57 | the initialised table holds the registry entries for each lexeme, in the code's order |
| LexerTables.LexerTable.SetWords | src/Lexer/LexerTable.java:27-33 | stores the keyword, boolean and type-name entries |
| LexerTables.LexerTable.SetArithmeticOperators | src/Lexer/LexerTable.java:34-39 | stores the arithmetic operator entries, null for "**" |
| LexerTables.LexerTable.SetBitwiseLogicalOperators | src/Lexer/LexerTable.java:40-45 | stores the bitwise and logical operator entries |
| LexerTables.LexerTable.SetPunctuation | src/Lexer/LexerTable.java:46-52 | stores the punctuation, assignment and equality entries, null for "==" |
| LexerTables.LexerTable.Set | src/Lexer/LexerTable.java:77-79 | `set` replaces the key's value and returns the previous one |
| LexerTables.LexerTable.Get | src/Lexer/LexerTable.java:65-67 | `get` is Lookup on the current entries |
| LexerTables.RegistryKeywordLookups | src/Lexer/LexerTable.java:27-30 | the declaration keywords are registered; the boolean names find nothing |
| LexerTables.RegistryTypeLookups | src/Lexer/LexerTable.java:31-33 | the type names find their types, with sizes 4, 4 and 1 |
| LexerTables.RegistryArithmeticOperatorsLookups | src/Lexer/LexerTable.java:34-39 | the arithmetic operators find their entries, and POW finds nothing |
| LexerTables.RegistryBitwiseLogicalOperatorsLookups | src/Lexer/LexerTable.java:40-45 | the bitwise and logical operators find their entries |
| LexerTables.RegistryPunctuationLookups | src/Lexer/LexerTable.java:46-52 | the punctuation and assignment find their entries, and EQ finds nothing |
| LexerTables.SetThenGet | src/Lexer/LexerTable.java:65-79 | `get` sees the last `set` under its key and nothing else |
| LexerTables.NullEntriesLookUnknown | src/Lexer/LexerTable.java:29-52 | through `get`, the null entries "true", "false", "**" and "==" look like strings never stored |
| LexerTables.OperatorLexemes | src/Lexer/LexerTable.java:34-52 | exactly the listed lexemes have operator entries |
| LexerTables.WordLexemes | src/Lexer/LexerTable.java:27-33 | only "var" and "const" have keyword entries, and only "Int", "Float" and "Bool" have type entries |
| Symbols.KeyOf | src/Symbols/SymbolInfo.java:32-44 | the hash key tells variables from reserved symbols; reserved symbols are keyed by the token type's name and variables by their id and their scope |
| Symbols.KeyOfMatchesEquals | src/Symbols/VarInfo.java:31-41 | two symbols share a key exactly when Java `equals` holds: equal ids, and for variables equal scopes |
| Symbols.Cast | src/Symbols/SymbolTable.java:105-127 | a downcast passes null, keeps a symbol of the asked kind and fails on any other kind |
| Symbols.SymbolTable.Init | src/Symbols/SymbolTable.java:22-53 | the initialised registry holds the registrations of `getInstance`, in order, each under its own key |
| Symbols.SymbolTable.Set | src/Symbols/SymbolTable.java:71-73 | `set` replaces the entry with an equal key, returns the previous one and keeps every entry under its own key |
| Symbols.SymbolTable.GetVar | src/Symbols/SymbolTable.java:94-97 | finds a variable exactly when one with that id and scope is registered |
| Symbols.KeywordIn | src/Symbols/SymbolTable.java:105-107 | finds the entry of that type exactly when it is a keyword, and fails the cast exactly when it is another kind |
| Symbols.OperatorIn | src/Symbols/SymbolTable.java:115-117 | finds the entry of that type exactly when it is an operator, and fails the cast exactly when it is another kind |
| Symbols.TypeIn | src/Symbols/SymbolTable.java:125-127 | finds the entry of that type exactly when it is a type, and fails the cast exactly when it is another kind |
| Symbols.SetTwice | src/Symbols/SymbolTable.java:27-28 | registering a symbol twice leaves the table as registering it once |
| Symbols.ReservedPrecedences | src/Symbols/SymbolTable.java:32-48 | ADD, SUB and the punctuation have precedence 0, the other operators 1; only SEMICOLON and ASSIGNMENT group right to left |
| Symbols.ReservedMisses | src/Symbols/SymbolTable.java:25-48 | BOOL_TRUE, BOOL_FALSE, POW and EQ are never registered |
| Keywords.KeywordTable.Init | src/Keywords/KeywordTable.java:20-31 | the initialised table is the four keyword entries |
| Keywords.KeywordTable.GetId | src/Keywords/KeywordTable.java:39-41 | a keyword gives its token type, and any other string gives null |
| Keywords.KeywordIds | src/Keywords/KeywordTable.java:20-31 | "var" is VAR_DECL, "let" is CONST_DECL, both booleans are BOOL_LITERAL, and nothing else is a keyword |
| Reserved.CastTo | src/Reserved/ReservedTable.java:65-98 | a lookup gives null when absent, the entry when it is of the asked kind, and a failed cast otherwise |
| Reserved.ReservedTable.Init | src/Reserved/ReservedTable.java:20-46 | the initialised registry holds the code's registrations |
| Reserved.ReservedTable.Set | src/Reserved/ReservedTable.java:54-56 | `set` replaces the entry with the same token type |
| Reserved.RegisteredKeywords | src/Reserved/ReservedTable.java:22-26 | the declaration keywords and the once-kept BOOL_LITERAL are keywords |
| Reserved.RegisteredTypes | src/Reserved/ReservedTable.java:27-29 | the type sizes are 4, 4 and 1 |
| Reserved.RegisteredOperators | src/Reserved/ReservedTable.java:30-41 | precedence bands: additive 2, multiplicative 3, POW 4, assignment 1, punctuation 0; only ASSIGNMENT and SEMICOLON are right to left |
| Reserved.KindIgnoredByMatching | src/Reserved/ReservedTable.java:65-68 | matching ignores the asked kind, so asking for the wrong kind finds the entry and fails the cast |
| Reserved.OldPreced | src/Reserved/OperatorTable.java:94-97 | `getPreced` gives the registered precedence, or -1 |
| Reserved.OldCmpPreced | src/Reserved/OperatorTable.java:116-128 | never 0; the higher precedence wins, and at equal precedence +1 exactly when the first operator is left to right |
| Reserved.OldOperatorTable.Init | src/Reserved/OperatorTable.java:26-56 | the initialised table holds the code's fixity, precedence and associativity entries |
| Reserved.OldFixities | src/Reserved/OperatorTable.java:26-56 | ASSIGNMENT is not infix here; MOD has no precedence, so comparing it with itself cannot return |
| Operators.OperatorId | src/Operators/OperatorTable.java:81-83 | exactly the eleven operator lexemes have an id |
| Operators.Preced | src/Operators/OperatorTable.java:121-124 | the registered precedence (at least 5), or -1 |
| Operators.CmpPreced | src/Operators/OperatorTable.java:143-155 | never 0; the higher precedence wins, and at equal precedence +1 exactly when the first operator is left to right |
| Operators.OperatorTable.Init | src/Operators/OperatorTable.java:27-73 | the initialised table holds the code's lexemes, fixity sets, precedences and associativities |
| Operators.AssignmentLoosest | src/Operators/OperatorTable.java:57-68 | ASSIGNMENT binds loosest and is the only right-to-left operator |
| Operators.Fixities | src/Operators/OperatorTable.java:42-61 | ADD and SUB are prefix; six operators are infix; none is postfix; MOD alone among the infix operators has no precedence |
| Operators.ModComparisons | src/Operators/OperatorTable.java:143-155 | `cmpPreced(MOD, MOD)` cannot return, and MOD ranks below every operator that has a precedence |
| Operators.CompatEquals | src/Operators/BinaryOperatorCompat.java:25-31 | keys are equal exactly when they are equal with all operand types present; a null first operand type fails; keys of different arity are never equal |
| Operators.OperandOrderMatters | src/Operators/BinaryOperatorCompat.java:25-31 | swapping two different operand types gives a different key |
| Types.TypeNamed | src/Types/TypeTable.java:21-31 | on the initialised table, exactly "int", "float" and "bool" name types, each of size 4 |
| Types.LiteralType | src/Types/TypeTable.java:69-71 | exactly the three literal token types have a type, the one named after it |
| Types.LiteralTypesAre | src/Types/TypeTable.java:24-26 | INT, FLOAT and BOOL literals are int, float and bool; ID and TYPE_ID have no type |
| Types.TypeTable.Init | src/Types/TypeTable.java:21-31 | the initialised table holds the three literal types |
| Types.TypeTable.Register | src/Types/TypeTable.java:38-40 | a registered type is found by its id afterwards |
| Types.TypeTable.RegisterLiteral | src/Types/TypeTable.java:48-51 | the literal maps to the type, and the type is found by its id too |
| Types.TypeTable.GetType | src/Types/TypeTable.java:59-61 | found exactly when the id is registered |
| Types.TypeTable.GetLiteralType | src/Types/TypeTable.java:69-71 | found exactly when the literal type is registered |
| Scopes.NewBlock | src/Parser/Block.java:9-12 | a new scope has an empty own table, and sees exactly what its parent sees |
| Scopes.Register | src/Parser/DeclParser.java:76-77 | the registered name resolves to the new symbol, and every other name resolves as before |
| Scopes.SetSymbolType | src/Parser/DeclParser.java:172-175 | the nearest symbol of that name gets the type and nothing else changes; with no such symbol the dereference fails |
| Scopes.Depth | src/Parser/Block.java:18-20 | a scope chain has at least one scope |
| Scopes.Shadowing | src/Parser/DeclParser.java:69-77 | a name registered in the own table would hide an enclosing declaration of it, and the enclosing scope keeps its own; no parse reaches this registration, because `DeclGrammar.Lhs` rejects a visible name first |
| Scopes.ChildSeesParent | src/Parser/Block.java:9-12 | a new child scope resolves every name as its parent does, one level deeper |
| Nodes.Node.constructor | src/Nodes/Node.java:38-41 | keeps the token and type, with no children |
| Nodes.Node.GetChild | src/Nodes/Node.java:51-53 | the i-th child added; an index outside the list fails |
| Nodes.Node.AddChild | src/Nodes/Node.java:55-57 | appends at the end: one more child, found at the old count |
| Nodes.Node.CountChildren | src/Nodes/Node.java:59-61 | the number of children added |
| Nodes.Node.Iterator | src/Nodes/Node.java:14-16 | a fresh iterator at the first child |
| Nodes.NodeIter.constructor | src/Nodes/Node.java:21-23 | starts at index 0 |
| Nodes.NodeIter.Next | src/Nodes/Node.java:31-35 | the child at the index, then one step on; past the end the lookup fails and the index stays |
| Nodes.ScopeNode.constructor | src/Nodes/ScopeNode.java:8-10 | an inherited part with no token, type SCOPE and no children, and an empty own list |
| Nodes.ScopeNode.AddChild | src/Nodes/ScopeNode.java:12-14 | appends to the own list only |
| Nodes.ScopeNode.CountChildren | src/Nodes/ScopeNode.java:16-18 | the size of the own list |
| Nodes.ScopeNode.GetChild | src/Nodes/Node.java:51-53 | the inherited lookup, which reads the inherited list |
| Nodes.InheritedListStaysEmpty | src/Nodes/ScopeNode.java:5-18 | after the constructor and two `addChild` calls, `countChildren` is 2 while the inherited `getChild` fails at every index |
| BaseParsers.Look | src/Parser/ExprParser.java:282-283 | the lookahead is the token at the position, or EOF on the last line once the tokens run out |
| BaseParsers.Next | src/Parser/DeclParser.java:60 | consuming advances by one, and never past the end |
| BaseParsers.NotEofAdvances | src/Parser/DeclParser.java:60-61 | a lookahead that is not EOF is a real token, so consuming it advances |
| BaseParsers.TokenCursor.constructor | src/Parser/BaseParser.java:17-19 | a cursor at the start of the stream |
| BaseParsers.TokenCursor.Consume | src/Parser/DeclParser.java:60 | returns the lookahead and moves past it |
| BaseParsers.ParseTok | src/Parser/BaseParser.java:29-36 | the expected token is consumed and returned; anything else gives null and nothing is consumed |
| ExprGrammar.PrefixOps | src/Parser/ExprParser.java:192-202 | the run of prefix operators stops at the first token that is not one |
| ExprGrammar.PrefixOpsSpan | src/Parser/ExprParser.java:192-202 | the run is exactly the prefix-operator tokens from the lookahead on, in order |
| ExprGrammar.ChainShape | src/Parser/ExprParser.java:195-217 | k prefix operators build a k-deep unary chain: level i holds the i-th operator, and the operand sits at depth k |
| ExprGrammar.ChainBottom | src/Parser/ExprParser.java:216-217 | the operand sits at the bottom of the chain |
| ExprGrammar.ChainWellFormed | src/Parser/ExprParser.java:195-217 | a chain of prefix operators over a well-formed operand is well formed |
| ExprGrammar.Primary | src/Parser/ExprParser.java:101-111 | a primary expression consumes input when present and is never the EMPTY sentinel |
| ExprGrammar.Paren | src/Parser/ExprParser.java:168-177 | without '(' nothing is parsed; a group consumes input and is never EMPTY |
| ExprGrammar.Postfix | src/Parser/ExprParser.java:232-243 | the primary expression, since no operator is postfix |
| ExprGrammar.Prefix | src/Parser/ExprParser.java:191-218 | a prefix expression consumes input when present and is never EMPTY |
| ExprGrammar.PrefixBuildsChain | src/Parser/ExprParser.java:191-218 | without prefix operators the result is the postfix expression; a run of operators with no operand after it raises the missing-operand error; otherwise the result is a unary chain whose level i holds the i-th operator token and whose bottom is the operand |
| ExprGrammar.Infix | src/Parser/ExprParser.java:272-393 | an infix expression consumes input when present; EMPTY only for a bare ';' with no enclosing operator or parenthesis |
| ExprGrammar.InfixLoop | src/Parser/ExprParser.java:281-392 | the loop only moves forward, returns EMPTY only at a bare ';', and otherwise returns its operand or a node built past it |
| ExprGrammar.InfixOperator | src/Parser/ExprParser.java:364-392 | after the assignment check, it hands the operand back to a tighter previous operator or consumes the operator; never EMPTY |
| ExprGrammar.TakeOperator | src/Parser/ExprParser.java:386-391 | consuming an operator always advances and never yields EMPTY |
| ExprGrammar.AssignmentError | src/Parser/ExprParser.java:364-379 | no error exactly when the left operand is an identifier bound to a mutable symbol |
| ExprGrammar.AssignableIsVariable | src/Parser/ExprParser.java:364-379 | an operand that passes the assignment check is a mutable variable node |
| ExprGrammar.PrimaryWellFormed | src/Parser/ExprParser.java:101-166 | a parsed primary is well formed: identifiers are bound with their symbol's type and mutability, and literals carry their type |
| ExprGrammar.ParenWellFormed | src/Parser/ExprParser.java:168-177 | a parenthesised group is well formed |
| ExprGrammar.PrefixWellFormed | src/Parser/ExprParser.java:191-218 | a prefix expression is well formed |
| ExprGrammar.InfixWellFormed | src/Parser/ExprParser.java:272-393 | an infix expression is well formed: infix operators at binary nodes, no EMPTY inside |
| ExprGrammar.InfixLoopWellFormed | src/Parser/ExprParser.java:281-392 | the loop keeps a well-formed operand well formed |
| ExprGrammar.InfixOperatorWellFormed | src/Parser/ExprParser.java:364-392 | an operator step over a well-formed operand is well formed |
| ExprGrammar.TakeOperatorWellFormed | src/Parser/ExprParser.java:386-391 | a taken operator with well-formed operands is well formed |
| ExprGrammar.InfixLoopRanksAbove | src/Parser/ExprParser.java:281-392 | under a previous operator, the loop returns its operand or an operator node that ranks above that operator |
| ExprGrammar.InfixOperatorRanksAbove | src/Parser/ExprParser.java:364-392 | under a previous operator, an operator step hands its operand back or builds a node whose operator ranks above the previous one |
| ExprGrammar.RightOperandRanksAbove | src/Parser/ExprParser.java:272-393 | the right operand of an operator is its first operand (literal, variable, prefix chain or parenthesised group) or a node whose operator binds tighter, or as tightly and left to right: a looser operator appears under a tighter one only inside parentheses |
| ExprGrammar.Analyze | src/Parser/ExprParser.java:401-457 | on success every operator node has both operands and the compatibility table's type, and the tree shape is unchanged |
| ExprGrammar.AnalyzeComplete | src/Parser/ExprParser.java:401-457 | analysis is the only typing: any fully typed tree of the same shape is what it returns |
| ExprGrammar.AnalyzeKeepsWellFormed | src/Parser/ExprParser.java:401-457 | analysis keeps a well-formed tree well formed |
| ExprGrammar.ParseExpr | src/Parser/ExprParser.java:32-38 | an expression consumes input when present; after the optional ';' it is analysed, and on success it is typed and well formed |
| ExprParsers.Agrees | src/Parser/ExprParser.java:32-38 | a method outcome agrees with the grammar only when its success, value and cursor match |
| ExprParsers.ExprParser.constructor | src/Parser/ExprParser.java:18-20 | keeps the cursor and the compatibility table |
| ExprParsers.ExprParser.ParsePrefixOp | src/Parser/ExprParser.java:62-70 | a prefix operator is consumed and returned; anything else is left alone |
| ExprParsers.ExprParser.ParseId | src/Parser/ExprParser.java:121-137 | a non-identifier gives nothing; an unbound identifier fails; a bound one is consumed as a variable node with its symbol's type |
| ExprParsers.ExprParser.ParseLiteral | src/Parser/ExprParser.java:146-156 | a token with a literal type is consumed as a literal of that type; anything else gives nothing |
| ExprParsers.ExprParser.ParseParenExpr | src/Parser/ExprParser.java:168-177 | agrees with Paren |
| ExprParsers.ExprParser.ParsePrimaryExpr | src/Parser/ExprParser.java:101-111 | agrees with Primary |
| ExprParsers.ExprParser.ParsePostfixExpr | src/Parser/ExprParser.java:232-243 | agrees with Postfix |
| ExprParsers.ExprParser.ParsePrefixOps | src/Parser/ExprParser.java:192-202 | the `while` loop consumes exactly the run PrefixOps |
| ExprParsers.ExprParser.ParsePrefixExpr | src/Parser/ExprParser.java:191-218 | agrees with Prefix |
| ExprParsers.ExprParser.RecurParseInfixExpr | src/Parser/ExprParser.java:272-393 | the `while (true)` loop agrees with Infix |
| ExprParsers.ExprParser.ParseExpr | src/Parser/ExprParser.java:32-38 | agrees with ExprGrammar.ParseExpr |
| ExprExamples.ExampleLexemes | src/Operators/OperatorTable.java:30-52 | the example operators are infix operators of the table |
| ExprExamples.LiteralOperand | src/Parser/ExprParser.java:146-156 | a literal operand is one token, typed by the type table |
| ExprExamples.VarOperand | src/Parser/ExprParser.java:121-137 | a bound identifier is one token with its symbol's type and mutability |
| ExprExamples.EndsAtSemicolon | src/Parser/ExprParser.java:312-324 | step for the examples: inside an operator's right operand, ';' after an operand ends the loop |
| ExprExamples.MeetsOperator | src/Parser/ExprParser.java:348-361 | step for the examples: after an operand, an infix operator of the table goes to the operator step |
| ExprExamples.YieldsToLooser | src/Parser/ExprParser.java:381-384 | step for the examples: an operator ranking below the previous one hands the operand back |
| ExprExamples.TakesOperator | src/Parser/ExprParser.java:386-391 | step for the examples: an operator that passes the checks is consumed and becomes the new left operand |
| ExprExamples.RejectsAssignment | src/Parser/ExprParser.java:364-379 | step for the examples: '=' after an operand that is not a bound, mutable variable is rejected |
| ExprExamples.NoOperand | src/Parser/ExprParser.java:191-218 | step for the examples: a token that starts no operand yields nothing and consumes nothing |
| ExprExamples.ClosesParen | src/Parser/ExprParser.java:339-346 | step for the examples: inside parentheses, ')' ends the loop |
| ExprExamples.ParenOperand | src/Parser/ExprParser.java:101-111 | step for the examples: at '(' the operand is the group |
| ExprExamples.ParenGroup | src/Parser/ExprParser.java:168-177 | step for the examples: '(' expression ')' is the inner expression with ')' consumed |
| ExprExamples.StartsWithOperand | src/Parser/ExprParser.java:272-281 | step for the examples: an infix expression is its first operand followed by the loop |
| ExprExamples.TighterOperatorGroupsFirst | src/Parser/ExprParserTest.java:52 | `1*2+3;` parses as `((1*2)+3)` |
| ExprExamples.EqualPrecedenceNestsRight | src/Parser/ExprParser.java:381-391 | `1-2-3;` parses as `(1-(2-3))` as the code is written |
| ExprExamples.EmptyStatement | src/Parser/ExprParser.java:329-335 | a bare ';' is the EMPTY sentinel |
| ExprExamples.NothingBeforeEof | src/Parser/ExprParser.java:298-301 | the end of input before any operand gives nothing |
| ExprExamples.OperandThenEof | src/Parser/ExprParser.java:285-309 | an operand at the end of input lacks its ';', or its ')' inside parentheses |
| ExprExamples.StrayRParen | src/Parser/ExprParser.java:339-346 | ')' outside parentheses is unexpected |
| ExprExamples.ChainedAssignmentRejected | src/Parser/ExprParser.java:364-391 | `a=b=c;` is rejected: the outer loop meets '=' after `a=b`, which is not a variable |
| ExprExamples.PrefixChainExample | src/Parser/ExprParserTest.java:54 | `--12.;` is a two-deep unary chain over the literal |
| ExprExamples.NegatedOne | src/Parser/ExprParserTest.java:53 | `-1` is a unary '-' over the literal 1 |
| ExprExamples.PrefixThenPrecedence | src/Parser/ExprParserTest.java:53-60 | `-1 + 2 * 3;` parses as the expected `((-(1))+((2)*(3)))` |
| ExprExamples.DoublyNegatedTwelve | src/Parser/ExprParserTest.java:54 | `--12.` is a two-deep unary chain over the literal 12.0 |
| ExprExamples.ProductEndsAtPlus | src/Parser/ExprParserTest.java:54 | in `--12.* 326+ ...`, the looser '+' ends the right operand of '*' at 326 |
| ExprExamples.QuotientAfterPlus | src/Parser/ExprParserTest.java:54 | the right operand of '+' in that input is the quotient `4.3e1 / 97.0` |
| ExprExamples.PrefixChainInSum | src/Parser/ExprParserTest.java:54-61 | `--12.* 326+ 4.3e1 / 97.0;` parses as the expected `(((-(-(12.0)))*(326))+((4.3e1)/(97.0)))` |
| ExprExamples.ModChainFails | src/Operators/OperatorTable.java:143-155 | `1%2%3;` fails because MOD has no associativity |
| ExprExamples.EmptyParensOperand | src/Parser/ExprParser.java:168-177 | `()` is consumed and yields no operand |
| ExprExamples.EmptyParens | src/Parser/ExprParser.java:168-177 | `();` is the empty statement |
| ExprExamples.OneArmedSum | src/Parser/ExprParser.java:339-391 | in `(1+);` the ')' ends the missing right operand, leaving a one-armed '+' |
| ExprExamples.OneArmedOperand | src/Parser/ExprParser.java:168-177 | `(1+)` is one operand, the one-armed '+' |
| ExprExamples.MissingRightOperand | src/Parser/ExprParser.java:433-457 | `(1+);` parses, and its analysis fails |
| ExprExamples.EmptyParensStatement | src/Parser/ExprParser.java:32-38 | `();` as a statement is EMPTY with its ';' consumed |
| ExprExamples.MissingRightOperandStatement | src/Parser/ExprParser.java:32-38 | `(1+);` as a statement fails in the analysis |
| ExprExamples.ParenthesisedSum | src/Parser/ExprParserTest.java:55 | in `1*(2+3);`, `(2+3)` is one operand |
| ExprExamples.ParensKeepGrouping | src/Parser/ExprParserTest.java:55 | `1*(2+3);` parses as `(1*(2+3))` |
| DeclGrammar.TypeAnnotation | src/Parser/DeclParser.java:90-102 | without ':' nothing is consumed; ':' must be followed by a type name, whose table type is the result; otherwise an error at the line after it |
| DeclGrammar.Lhs | src/Parser/DeclParser.java:45-81 | without `var`/`let` nothing happens; otherwise a name must follow, and a declaration is mutable exactly for `var`; the name was not visible and is now registered |
| DeclGrammar.Assignment | src/Parser/DeclParser.java:113-142 | without '=' and without a declaration, the expression statement (or nothing); without '=', an untyped declaration cannot determine its type and a typed one needs ';' (its DECL node ends after the ';'); with '=', an empty initializer is an error and otherwise the DEF root's right side is exactly the expression parsed after '=' and its left side the declaration |
| DeclGrammar.AnalyzeDecl | src/Parser/DeclParser.java:151-189 | only DEF roots are checked; success exactly when the types unify; then the node, the symbol and the root share the initializer's type |
| DeclGrammar.ParseDecl | src/Parser/DeclParser.java:30-35 | a statement consumes input when present |
| DeclGrammar.ExpressionStatement | src/Parser/DeclParser.java:116-119 | without `var`, `let` or '=', a statement is exactly an expression statement and the scope is untouched |
| DeclGrammar.AssignmentWithoutDeclaration | src/Parser/DeclParser.java:157-165 | '=' with nothing declared fails on the null left-hand side |
| DeclGrammar.RedeclarationRejected | src/Parser/DeclParser.java:69-73 | a name visible in the scope or an enclosing one cannot be declared again |
| DeclGrammar.UntypedWithoutInitializer | src/Parser/DeclParser.java:120-125 | a declaration with neither a type nor an initializer fails |
| DeclGrammar.DeclKeepsVisibleSymbols | src/Parser/DeclParser.java:69-77 | a declaration adds to the own table only; every name visible before resolves as before |
| DeclGrammar.AnalysisRetypesOnly | src/Parser/DeclParser.java:165-176 | analysis changes the scope only by typing the declared name |
| DeclGrammar.DeclBindsName | src/Parser/DeclParser.java:45-189 | the declared name is bound to exactly the declaration's symbol, which has a type; a DEF root carries that type, which is the initializer's |
| DeclGrammar.TypedDeclarationShape | src/Parser/DeclParser.java:116-130 | `var x: T;` with a known T and a fresh name is a DECL node and registers x with T |
| DeclGrammar.TypedDeclaration | src/Parser/DeclParserTest.java:39-52 | `var a: int;` is a mutable DECL node `a` of type int, size 4 |
| DeclParsers.DeclParser.constructor | src/Parser/DeclParser.java:17-20 | keeps the cursor and the expression parser over it |
| DeclParsers.DeclParser.ParseDecl | src/Parser/DeclParser.java:30-35 | agrees with DeclGrammar.ParseDecl, including the scope it leaves |
| DeclParsers.DeclParser.ParseLhs | src/Parser/DeclParser.java:45-81 | agrees with Lhs |
| DeclParsers.DeclParser.ParseType | src/Parser/DeclParser.java:90-102 | agrees with TypeAnnotation |
| DeclParsers.DeclParser.ParseAssignment | src/Parser/DeclParser.java:113-142 | agrees with Assignment: the same statement root or error, and the cursor at the same lookahead |
| ScopeGrammar.ScopeLoop | src/Parser/ScopeParser.java:35-56 | the loop never moves the cursor backwards or past the end |
| ScopeGrammar.BlockStep | src/Parser/ScopeParser.java:45-55 | an error from the block parser is the loop's error; a null block ends the loop with what was collected; a block node (which always has children) is appended and the loop goes on after its '}' |
| ScopeGrammar.ParseScope | src/Parser/ScopeParser.java:29-59 | the scope node holds exactly the children the loop collects from nothing, and is null exactly when it collects none; same errors, scope and cursor as the loop |
| ScopeGrammar.ParseBlock | src/Parser/BlockParser.java:26-43 | without '{' nothing is consumed and the result is null; the caller's scope is unchanged; a block node always has children |
| ScopeGrammar.ScopeLoopAppends | src/Parser/ScopeParser.java:35-56 | the loop only appends: run after `acc` it yields `acc` followed by what it collects from nothing, with the same scope, cursor and errors |
| ScopeGrammar.BlockStepAppends | src/Parser/ScopeParser.java:45-55 | the block step only appends, in the same sense |
| ScopeGrammar.StatementAppended | src/Parser/ScopeParser.java:37-43 | a parsed statement that is not EMPTY is appended and the loop goes on after it |
| ScopeGrammar.BlockAppended | src/Parser/ScopeParser.java:45-53 | with no statement, a block with children is appended and the loop goes on after its '}' |
| ScopeGrammar.NothingEndsLoop | src/Parser/ScopeParser.java:37-48 | with neither a statement nor a block, the loop ends with what was collected |
| ScopeGrammar.ScopeStartsWithStatement | src/Parser/ScopeParser.java:29-58 | a scope starting with a non-EMPTY statement is that statement followed, in order, by the children of the scope parsed after it |
| ScopeGrammar.ScopeStartsWithBlock | src/Parser/ScopeParser.java:29-58 | a scope starting with a block with children is that block followed, in order, by the children of the scope parsed after its '}' |
| ScopeGrammar.ClosedBlock | src/Parser/BlockParser.java:26-43 | a closed block is the node of its body parsed in a new scope whose parent is the caller's; the '}' is consumed and the caller's scope unchanged |
| ScopeGrammar.CollectedAppend | src/Parser/ScopeParser.java:40-53 | appending a non-EMPTY statement or a block with children keeps a scope node's shape |
| ScopeGrammar.ScopeLoopCollects | src/Parser/ScopeParser.java:35-56 | what was collected stays a prefix; no EMPTY statement and no childless block is ever added |
| ScopeGrammar.BlockStepCollects | src/Parser/ScopeParser.java:47-54 | a block is appended only when it has children |
| ScopeGrammar.ScopeLoopKeepsVisible | src/Parser/ScopeParser.java:35-56 | statements register only into the loop's own scope; names declared inside a block stay in the block |
| ScopeGrammar.ParseScopeShape | src/Parser/ScopeParser.java:29-59 | a parsed scope node holds no EMPTY statement and no childless block, and keeps what was visible |
| ScopeGrammar.NoStatementAt | src/Parser/ScopeParser.java:37-38 | at a brace or the end of input there is no statement: nothing is consumed or registered |
| ScopeGrammar.SemicolonIsEmptyStatement | src/Parser/ExprParser.java:329-335 | a lone ';' is the EMPTY statement, consumed, with the scope untouched |
| ScopeGrammar.EmptyStatementSkipped | src/Parser/ScopeParser.java:40-44 | the EMPTY statement is consumed and not added |
| ScopeGrammar.EndOfInputEndsScope | src/Parser/ScopeParser.java:45-48 | the end of input ends the loop with what was collected |
| ScopeGrammar.EmptyBlockEndsScope | src/Parser/ScopeParser.java:47-54 | `{}` comes back null, so it is consumed and ends the enclosing loop |
| ScopeGrammar.UnclosedBlock | src/Parser/BlockParser.java:38-40 | a '{' whose body is not followed by '}' fails at the line after the body |
| ScopeParsers.ScopeParser.constructor | src/Parser/ScopeParser.java:15-19 | keeps the cursor, the statement parser and the block parser |
| ScopeParsers.ScopeParser.Compat | src/Parser/ScopeParser.java:37 | the compatibility table of the statement parser's expression parser |
| ScopeParsers.ScopeParser.ParseScope | src/Parser/ScopeParser.java:29-59 | the `while (!endFlag)` loop agrees with ScopeGrammar.ParseScope: same children, null exactly when none, same scope and cursor |
| ScopeParsers.BlockParser.constructor | src/Parser/BlockParser.java:13-16 | builds its scope parser over the same cursor, pointing back at it |
| ScopeParsers.BlockParser.ParseBlock | src/Parser/BlockParser.java:26-43 | agrees with ScopeGrammar.ParseBlock (whose closed-block result is stated by ClosedBlock) |

## Left out

- Character input is a sequence of UTF-16 units with no surrogates. The reader's IOException is not modelled.
- `Character.isAlphabetic` and `Character.isDigit` are restricted to ASCII letters and digits. `isWhitespace` follows Java's definition.
- The `Global.Config` class that `LexerTable` reads is not part of this model. Its strings are taken to be those of `Global/Keywords.java`.
- The singletons' `getInstance` and the `init` flag are modelled as one-time constructors. Their initialised contents are constants.
- Lexer hand-off: the parsers read the token sequence through a cursor and do not call the lexer token by token. The cursor stands in for the lexer's `lookahead`, `consume` and `getCurrLine`, which no modelled revision of the lexer has.
- The operator compatibility table is a parameter. No revision of `Operators/OperatorTable` here has the `getCompatDataType` that fills it.
- Scopes.GetSymbol: the fall-through to the parent's table is inferred, not taken from code. The parent-chained `SymbolTable` that `Parser/Block` builds is not part of this model; the fall-through is the reading under which `parseId` resolves names of enclosing blocks.
- `Block` and its symbol table are values threaded through the parsers, not shared objects. Registration and the type back-patch of `analyzeSemantics` return the updated scope.
- Node types: a nested block's `ScopeNode` appears in its parent as a `Nested(children)` value.
- Type identity: `TypeInfo` objects are compared by value. The source compares references, and all of them come from the one type table.
- `ExprParser.parsePostfixOp` is left out because the postfix set is empty, so it never consumes.
- `parseExpr(scope, inParen)` and `parseInfixExpr` are inlined into their callers. They only delegate.
- `StatementParser.parseStatement` is inlined because it delegates to `parseDecl`.
- `toJson`, `toString`, `JsonTraversal`, the `Main` classes, `SrcParser` and `ExprParslet` are left out. They serialize or drive the parsers and do not decide anything.
- An operation that throws returns an error. The lexer state it leaves behind is not modelled.
- The Java `NullPointerException`, `ClassCastException` and `IndexOutOfBoundsException` that the code can raise become error values.
- Integers are unbounded. No line count or position in the model comes near 2^31.
- ScopeParsers.ScopeParser.ParseScope: does not restate the inherited child list of the returned node, because that list is never written. `Nodes.InheritedListStaysEmpty` covers it.
- ScopeParsers.BlockParser.ParseBlock: does not state freshness of nodes it did not allocate, because only the shape of the children is observable.
