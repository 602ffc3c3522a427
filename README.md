# Monkey front end in Dafny

This project models the front end of a small interpreter for the Monkey
language, written in Rust: the token vocabulary with its keyword lookup, the
lexer, the syntax tree and the parser of `let` statements. Each part is a
Dafny module and is proved correct against a specification of what the source
code does.

- `tokens.dfy`, module `Tokens`: the token-type constants as the datatype
  `TokenType`, the `Token` record, the keyword table and `LookupIdent`
  (`lookup_ident`).
- `lexing.dfy`, module `Lexing`: `Scan(s, p)` specifies one `next_token` call
  as a pure function of the input and the position. It skips whitespace, then
  scans one token by maximal munch. The `Lexer` class has the source's fields
  `position`, `readPosition` and `ch`, and its methods (`ReadChar`,
  `SkipWhitespace`, `ReadIdentifier`, `ReadNumber`, `NextToken`) are proved to
  do what `Scan` says. `TokenAt(s, o, k)` is the token the k-th call returns.
- `relex.dfy`, module `Relexing`: a text built from pieces is lexed back into
  its tokens. Each piece is some blank space and then a token literal, and the
  character after each literal must not extend it.
- `ast.dfy`, module `Ast`: the syntax tree. The source's `Statement` and
  `Expression` traits become closed datatypes, with `TokenLiteral`, the
  `String` renderers and the `As…` downcasts.
- `parsing.dfy`, module `Parsing`: the `Parser` class is the source's
  two-token window (`curToken`, `peekToken`) over a `Lexer`. `ParseProgram`,
  `ParseStatement`, `ParseLetStatement`, `ExpectPeek` and the skip loop are
  proved against ghost functions over the lexer's token stream: `ParseFrom`,
  `StatementAt` and `LetAt`.
- `lexer_test.dfy` and `parser_test.dfy`: the repository's own unit tests,
  proved for all runs. The lexer test's input yields exactly the listed
  tokens and then `EOF`. The parser test's input parses into three let
  statements named x, y and foobar. Most of `lexer_test.dfy` is small lemmas
  (`Line0Text`, `Line0PieceTexts` and the like) that are steps of this one
  trace, split line by line and piece by piece so that each proof stays small;
  they state no property of the lexer beyond the test's own result.

## Model

| member | source | states |
|---|---|---|
| Tokens.TypeNameRoundTrip | src/token/token.rs:9-44 | every token-type constant is recovered from its string, so the token-type strings are a faithful encoding of `TokenType` |
| Tokens.TypeNamesDistinct | src/token/token.rs:9-44 | two token types have the same string exactly when they are the same type: the constants are pairwise distinct |
| Tokens.KeywordSpellingsDistinct | src/token/token.rs:46-54 | no spelling occurs twice in the keyword table, so a first-match search finds the only match |
| Tokens.LookupIdent | src/token/token.rs:56-63 | the result is always one of the seven keyword types or `IDENT`; it is `LET` exactly for "let" and `FUNCTION` exactly for "fn" |
| Tokens.LookupFromFinds | src/token/token.rs:56-63 | the first-match search of a table returns the type of the first entry whose spelling equals the string, and `IDENT` when no entry matches |
| Tokens.LookupIdentIsSearch | src/token/token.rs:56-63 | `LookupIdent` agrees with the in-order first-match search of the keyword table on every string |
| Tokens.LookupIdentSpec | src/token/token.rs:46-63 | a keyword spelling maps to the type in its table entry, and every other string maps to `IDENT` |
| Tokens.LookupIdentKeywords | src/token/token.rs:46-54 | fn, let, true, false, if, else and return map to FUNCTION, LET, TRUE, FALSE, IF, ELSE and RETURN |
| Tokens.LookupIdentRange | src/token/token.rs:56-63 | the result is a keyword type exactly for the keyword spellings, and `IDENT` exactly for every other string. ILLEGAL, EOF, INT and operator types never come out, and LET comes only from "let" |
| Tokens.LookupIdentCaseSensitive | src/token/token.rs:58 | matching is exact and case-sensitive: "Let", "lets" and "RETURN" map to `IDENT` |
| Lexing.IsLetter | src/lexer/lexer.rs:135-137 | a letter (ASCII letter or `_`) is never NUL, whitespace or a digit, so the end-of-input, whitespace-skipping and number branches of `next_token` never see one |
| Lexing.RunEnd | src/lexer/lexer.rs:101-121 | a scanning loop stops at the first position, at or after its start, whose character is outside the class. That is NUL at the latest, just past the end of the input |
| Lexing.RunEndInClass | src/lexer/lexer.rs:103-105 | every character that a scanning loop passes over is in its class and inside the input |
| Lexing.NewToken | src/lexer/lexer.rs:123-133 | a one-character token has the given type and a literal of at most one character: empty exactly for NUL, and otherwise the character itself |
| Lexing.ScanToken | src/lexer/lexer.rs:42-98 | scanning a token always moves past the current position |
| Lexing.Scan | src/lexer/lexer.rs:40-99 | every `next_token` call advances the position by at least one |
| Lexing.ScanAtEnd | src/lexer/lexer.rs:117-128 | when only whitespace is left, the call returns `EOF` with the empty literal and leaves the position past the end |
| Lexing.ScanPastEnd | src/lexer/lexer.rs:79 | past the end of the input, a call returns `EOF` with the empty literal and advances exactly one position |
| Lexing.PosAfterBeyond | src/lexer/lexer.rs:22-30 | once the lexer is past the end, each further call advances the position by exactly one |
| Lexing.EofPastEnd | src/lexer/lexer.rs:79 | once the lexer is past the end, every later call returns `EOF` with the empty literal |
| Lexing.EofForever | src/lexer/lexer.rs:117-128 | once only whitespace is left, every further call returns `EOF` with the empty literal |
| Lexing.WhitespaceOnlyInput | src/lexer/lexer.rs:117-128 | on a whitespace-only input, the first token and every later one is `EOF` with the empty literal |
| Lexing.ScanTwoCharOperators | src/lexer/lexer.rs:43-68 | `=` or `!` followed by `=` gives `EQ` "==" or `NEQ` "!=" and consumes both characters; otherwise it gives `ASSIGN` "=" or `BANG` "!" and consumes one |
| Lexing.ScanIdentifier | src/lexer/lexer.rs:81-107 | an identifier's literal is the longest run of letters at the current character, and its type is `LookupIdent` of that literal. The first non-letter after it is not consumed |
| Lexing.ScanNumber | src/lexer/lexer.rs:87-115 | a number's literal is the longest run of digits, its type is `INT`, and the first non-digit after it is not consumed |
| Lexing.ScanIllegal | src/lexer/lexer.rs:94-98 | any other character gives `ILLEGAL` with that character as its literal, and exactly that one character is consumed |
| Lexing.ScanConsumes | src/lexer/lexer.rs:40-99 | `EOF` is returned exactly at a NUL, with the empty literal; every other token's literal is exactly the input text it consumed after the skipped whitespace |
| Lexing.ScanWellFormed | src/lexer/lexer.rs:81-86 | a `LET` token always has the literal "let", and an `IDENT` literal is a non-empty run of letters that is not a keyword |
| Lexing.PosAfterProgress | src/lexer/lexer.rs:40-99 | after k calls, the position has advanced by at least k |
| Lexing.Lexer.constructor | src/lexer/lexer.rs:11-20 | a new lexer is at position 0 of its input, with `ch` the first character (NUL when the input is empty) |
| Lexing.Lexer.ReadChar | src/lexer/lexer.rs:22-30 | `position` takes the old `readPosition` and `readPosition` becomes `position + 1`; `ch` is NUL when the old `readPosition` was at or past the end of the input, and otherwise the character there (which may itself be an embedded NUL) |
| Lexing.Lexer.PeakChar | src/lexer/lexer.rs:32-38 | returns the character after the current one, or NUL past the end; as a function it changes no state |
| Lexing.Lexer.SkipWhitespace | src/lexer/lexer.rs:117-121 | moves to the end of the whitespace run at the current character |
| Lexing.Lexer.ReadIdentifier | src/lexer/lexer.rs:101-107 | moves to the end of the letter run and returns the input text between the old and new positions |
| Lexing.Lexer.ReadNumber | src/lexer/lexer.rs:109-115 | moves to the end of the digit run and returns the input text between the old and new positions |
| Lexing.Lexer.NextToken | src/lexer/lexer.rs:40-99 | returns the token that `Scan` gives from the old position, and leaves the lexer at the position `Scan` gives |
| Relexing.SpelledTokens | src/lexer/lexer.rs:40-99 | on a text made of spelled-out pieces followed by blank space, the k-th call returns the k-th piece's token, and every call after the last piece returns `EOF` |
| LexerTest.NextTokens | src/lexer/lexer.rs:243-248 | n calls of `next_token` on a fresh lexer return the first n tokens of the input, in order |
| LexerTest.InputTokens | src/lexer/lexer.rs:147-242 | the test input's tokens are the 73 listed (type, literal) pairs, and every later token is `EOF` with the empty literal |
| LexerTest.TestNextToken | src/lexer/lexer.rs:146-249 | the lexer test: the calls on the test input return exactly the listed tokens, ending in (`EOF`, "") |
| Ast.Expression.AsIdentifierExpression | src/ast/ast.rs:97-99 | the downcast of an identifier expression gives back that identifier |
| Ast.Statement.AsLetStatement | src/ast/ast.rs:72-74 | is Some exactly for a let statement, and then gives back its node |
| Ast.Statement.AsReturnStatement | src/ast/ast.rs:122-124 | is Some exactly for a return statement, and then gives back its node |
| Ast.Statement.AsExpressionStatement | src/ast/ast.rs:143-145 | is Some exactly for an expression statement, and then gives back its node |
| Ast.DowncastsExclusive | src/ast/ast.rs:8-19 | at most one downcast of a statement succeeds; every downcast of an identifier used as a statement is None |
| Ast.IdentifierRendering | src/ast/ast.rs:82-89 | an identifier, as an expression or as a statement, has its token's literal as token literal and its value as rendering; when built from its token, as the parser builds it, the two are the same text |
| Ast.LetRendering | src/ast/ast.rs:59-67 | through `Statement.String` and `Statement.TokenLiteral`, a let statement renders as its token literal, a space, its name, " = " and ";". The rendering starts with the token literal and ends with ";" |
| Ast.ReturnRendering | src/ast/ast.rs:111-117 | through the `Statement` dispatch, a return statement renders as its token literal followed by " ;", so the rendering starts with the token literal and ends with ";" |
| Ast.ExpressionRendering | src/ast/ast.rs:136-138 | through the `Statement` dispatch, an expression statement renders as its expression, which is an identifier's value, and an identifier used as a statement renders as its value |
| Ast.RenderedAppend | src/ast/ast.rs:40-46 | the rendering of two statement lists, one after the other, is the concatenation of their renderings |
| Ast.Program.TokenLiteral | src/ast/ast.rs:33-39 | the first statement's token literal, or "" for a program without statements |
| Ast.Program.String | src/ast/ast.rs:40-46 | the loop accumulates the in-order concatenation of the statements' renderings |
| Ast.TestString | src/ast/ast.rs:154-178 | the rendering test: a program holding `let myVar` renders as "let myVar = ;" |
| Parsing.NextSemicolon | src/parser/parser.rs:80-82 | the index where the skip loop stops is at or after its start, and is a `;` whenever it lies inside the stream |
| Parsing.NextSemicolonFirst | src/parser/parser.rs:80-82 | the skip loop stops at the first `;` from its start, and stops inside the stream exactly when such a `;` exists |
| Parsing.LetAt | src/parser/parser.rs:63-88 | the let parse never moves back; a failure stops at most one token on, on the last token that matched, and the token after it is the one that did not match (`IDENT` expected after `let`, `ASSIGN` after the name); a success ends at least three tokens on, on a `;` when one is left, and names the identifier by its token's literal |
| Parsing.StatementAt | src/parser/parser.rs:49-61 | a statement parse yields only let statements, and only on a `LET` token; on any other token it yields None and stays where it is |
| Parsing.LetSuccess | src/parser/parser.rs:63-88 | `parse_let_statement` succeeds exactly when `LET` is followed by `IDENT` and `ASSIGN`. The node holds the `let` token, and its name holds the identifier token and its literal. The parse ends on the first `;` after the `=` |
| Parsing.LetFailureRecovery | src/parser/parser.rs:66-78 | a failed let statement consumes only the tokens that matched, so the token whose type was wrong is the next to be examined as a statement start |
| Parsing.UnclosedLetSpins | src/parser/parser.rs:80-82 | without a `;` after `let <ident> =`, no token from the `=` on is a `;` and every token past the stream is `EOF`, so the skip loop never stops |
| Parsing.StatementOnlyLet | src/parser/parser.rs:49-61 | `parse_statement` gives None on every token but `LET`; on `LET` it gives what `parse_let_statement` gives and stops where that stops |
| Parsing.ParseFrom | src/parser/parser.rs:34-47 | the statement loop stops on an `EOF` token, at or after its start |
| Parsing.ParseFromExtends | src/parser/parser.rs:34-47 | the statement loop keeps the statements it has and only appends to them |
| Parsing.ParseFromOrder | src/parser/parser.rs:34-47 | the loop appends statements in source order: the k-th new statement is the let statement that `parse_let_statement` builds at the k-th index of `LetStarts`, a `LET` token at or after the start, and each such index lies past the end of the statement before it |
| Parsing.StreamLetsSpelled | src/lexer/lexer.rs:81-86 | every `LET` token in the lexer's stream has the literal "let", since a `LET` type only comes from looking up the identifier "let" |
| Parsing.ParsedTokenLiteral | src/ast/ast.rs:33-39 | the program `parse_program` builds from a lexer's stream has the token literal "let" when it has a statement, and "" when it has none |
| Parsing.ParseFromLets | src/parser/parser.rs:38-43 | every statement the loop appends is a let statement built from a `LET` token and an `IDENT` token of the stream, named by the identifier's literal |
| Parsing.ParseFromCount | src/parser/parser.rs:34-47 | the loop appends at most one statement per `LET` token it passes |
| Parsing.Parser.constructor | src/parser/parser.rs:16-27 | a new parser holds the lexer's first and second tokens as `curToken` and `peekToken` |
| Parsing.Parser.NextToken | src/parser/parser.rs:29-32 | the new `curToken` is the old `peekToken`, and the new `peekToken` is the lexer's next token |
| Parsing.Parser.CurTokenIs | src/parser/parser.rs:90-95 | true exactly when the current token is present and has type t |
| Parsing.Parser.PeekTokenIs | src/parser/parser.rs:97-102 | true exactly when the next token has type t |
| Parsing.Parser.ExpectPeek | src/parser/parser.rs:104-111 | when the next token has type t, advances exactly once and returns true; otherwise returns false and changes neither the parser nor the lexer |
| Parsing.Parser.SkipToSemicolon | src/parser/parser.rs:80-82 | when a `;` lies ahead, stops on the first one |
| Parsing.Parser.ParseLetStatement | src/parser/parser.rs:63-88 | returns what `LetAt` specifies and ends where it says; a current token remains exactly on success |
| Parsing.Parser.ParseStatement | src/parser/parser.rs:49-61 | returns what `StatementAt` specifies and ends where it says; a current token remains exactly when the token was not `LET` or the let statement was parsed (a failed let leaves none, as `take` does) |
| Parsing.Parser.ParseNext | src/parser/parser.rs:37-44 | one pass of the loop parses a statement and then steps one token past where that statement ended |
| Parsing.Parser.ParseProgram | src/parser/parser.rs:34-47 | collects exactly the statements of `ParseFrom` and stops with the current token `EOF` |
| ParserTest.RenderedParse | src/parser/parser.rs:121-144 | the token stream of a rendering of well-formed let bindings closes every let with a `;`, and parses into those bindings' statements, in order |
| ParserTest.ParseRendered | src/parser/parser.rs:128-131 | lexing and then parsing the rendering of well-formed bindings gives back their let statements |
| ParserTest.LetInputRendered | src/parser/parser.rs:122-126 | the parser test's input is the rendering of the bindings x = 5, y = 10 and foobar = 838383 |
| ParserTest.TestLetStatements | src/parser/parser.rs:121-176 | the parser test: three statements, each with token literal "let" and a let downcast whose name value and name token literal are x, y and foobar |

## Left out

- Unicode letters and digits: `is_letter` and the digit test use Rust's
  `is_alphabetic` and `is_numeric`. The model takes ASCII letters plus `_`, and
  ASCII digits. The source also mixes byte length and byte slicing with
  character indexing; these agree only on ASCII input.
- 32-bit positions: `position` and `read_position` are `u32` in the source.
  The model uses unbounded naturals and does not model their overflow.
- An embedded NUL in the input is modelled as the source handles it: it yields
  an `EOF` token, and lexing goes on after it. Only the end of the input makes
  `EOF` permanent.
- Parsing.Parser.ParseLetStatement: the skip loop has no exit at `EOF`. It ends
  only when a `;` follows `let <ident> =`, so this is a precondition
  (`AssignClosed`, and `SemicolonsClose` for the whole program).
  `UnclosedLetSpins` states what happens when the precondition fails: the
  loop never terminates.
- Parsing.SemicolonsClose: the precondition asks for a closing `;` after every
  `let <ident> =` in the whole recorded stream, including lets that follow an
  embedded NUL, which `ParseProgram` never reaches because it stops at that
  NUL's `EOF`. For NUL-free input the two coincide; for input with an embedded
  NUL the precondition is stricter than what the source needs.
- `parse_statement`'s panic when there is no current token is a precondition
  (`curToken.Some?`). `Option::take` is modelled by setting `curToken` to None
  while the let statement holds the token.
- The two `println!` debug lines, the REPL and the program entry point are
  input and output only and are not modelled.
- Box, trait objects and `Clone` are not modelled: nodes are immutable Dafny
  values.
- LexerTest.TestNextToken and ParserTest.TestLetStatements: the test inputs
  are written as concatenations of their lines, and the lexer test's tokens
  are proved line by line through the pieces each line is made of. The parser
  test rests on a general result (`RenderedParse`) for any list of well-formed
  bindings.
